/** The sign registry of bot.py (the three tables keyed by the twelve display
    labels) and the arithmetic that turns an ordered pair of signs into the
    number of a compatibility page. */
module Zodiac {
  import opened Wrappers

  /** The twelve display labels, in the order the tables declare them (the
      order in which the sign keyboards list them). */
  const SignLabels: seq<string> := [
    "♈ Овен", "♉ Телец", "♊ Близнецы", "♋ Рак", "♌ Лев", "♍ Дева",
    "♎ Весы", "♏ Скорпион", "♐ Стрелец", "♑ Козерог", "♒ Водолей", "♓ Рыбы"
  ]

  /** ZODIAC_SIGNS: display label to the English id used in horoscope URLs. */
  const ZodiacSigns: map<string, string> := map[
    "♈ Овен" := "aries",
    "♉ Телец" := "taurus",
    "♊ Близнецы" := "gemini",
    "♋ Рак" := "cancer",
    "♌ Лев" := "leo",
    "♍ Дева" := "virgo",
    "♎ Весы" := "libra",
    "♏ Скорпион" := "scorpio",
    "♐ Стрелец" := "sagittarius",
    "♑ Козерог" := "capricorn",
    "♒ Водолей" := "aquarius",
    "♓ Рыбы" := "pisces"
  ]

  /** ZODIAC_INDEXES: display label to the ordinal used by the combination number. */
  const ZodiacIndexes: map<string, int> := map[
    "♈ Овен" := 1,
    "♉ Телец" := 2,
    "♊ Близнецы" := 3,
    "♋ Рак" := 4,
    "♌ Лев" := 5,
    "♍ Дева" := 6,
    "♎ Весы" := 7,
    "♏ Скорпион" := 8,
    "♐ Стрелец" := 9,
    "♑ Козерог" := 10,
    "♒ Водолей" := 11,
    "♓ Рыбы" := 12
  ]

  /** ZODIAC_INFO: display label to the description shown by the "sign info" action. */
  const ZodiacInfo: map<string, string> := map[
    "♈ Овен" := "♈ Управитель Марс дает знаку такие черты как резкость, яркость, живость, энергичность и стремительность.",
    "♉ Телец" := "♉ Управитель Венера дарует стабильность, уверенность и материальную гармонию.",
    "♊ Близнецы" := "♊ Управитель Меркурий отвечает за любознательность, общительность, умение налаживать контакты.",
    "♋ Рак" := "♋ Управитель Луна несет душевность, чувственность, внутреннее спокойствие и умение заботиться о других.",
    "♌ Лев" := "♌ Управитель Солнце наделяет энергичностью, страстностью, умением быть в центре внимания, устойчивостью и творческим началом.",
    "♍ Дева" := "♍ Управитель Меркурий дарит внимательность, стремление к идеальности и порядку, аккуратность и перфекционизм.",
    "♎ Весы" := "♎ Управитель Венера отвечает за плавность, мягкость, баланс, красоту и утонченность.",
    "♏ Скорпион" := "♏ Управитель Плутон несет страсть, интуицию, загадочность, умение видеть суть событий.",
    "♐ Стрелец" := "♐ Управитель Юпитер дает человеку сообразительность, широту души, тягу к расширению границ, умение вести за собой.",
    "♑ Козерог" := "♑ Управитель Сатурн привнесет в характер конкретность и дисциплину, умение видеть цель и идти к ней.",
    "♒ Водолей" := "♒ Управитель Уран отвечает за революционность, новые прорывные идеи, предвосхищение будущего и внутреннюю свободу.",
    "♓ Рыбы" := "♓ Управитель Нептун подарит творческую жилку, вдохновение, умение копнуть глубоко и наличие своей философии."
  ]

  /** All three tables have exactly the twelve declared labels as keys, and the
      labels are pairwise distinct. */
  lemma TablesShareKeys()
    ensures |SignLabels| == 12
    ensures forall i, j :: 0 <= i < j < |SignLabels| ==> SignLabels[i] != SignLabels[j]
    ensures ZodiacSigns.Keys == ZodiacIndexes.Keys == ZodiacInfo.Keys == set l | l in SignLabels
  {
  }

  /** A label registered in ZODIAC_SIGNS can be looked up in the other two
      tables. */
  lemma RegisteredEverywhere(name: string)
    requires name in ZodiacSigns
    ensures name in ZodiacIndexes && name in ZodiacInfo
  {
  }

  /** The ordinal of the label at declaration position i is i + 1, so the
      ordinals are exactly 1..12 and follow the declaration order. */
  lemma OrdinalsFollowDeclarationOrder()
    ensures forall i :: 0 <= i < |SignLabels| ==>
      SignLabels[i] in ZodiacIndexes && ZodiacIndexes[SignLabels[i]] == i + 1
  {
  }

  /** Every registered label has an ordinal in 1..12, and distinct labels have
      distinct ordinals. */
  lemma OrdinalsInjective()
    ensures forall l :: l in ZodiacIndexes ==> 1 <= ZodiacIndexes[l] <= 12
    ensures forall l, l' :: l in ZodiacIndexes && l' in ZodiacIndexes && l != l' ==>
      ZodiacIndexes[l] != ZodiacIndexes[l']
  {
  }

  /** Every registered label has a non-empty, lower-case ASCII English id. */
  lemma EnglishIdsAreLowerCase()
    ensures forall l :: l in ZodiacSigns ==>
      |ZodiacSigns[l]| > 0 && forall c :: c in ZodiacSigns[l] ==> 'a' <= c <= 'z'
  {
  }

  /** The KeyError a dictionary lookup raises, naming the missing key. */
  datatype LookupError = KeyError(key: string)

  /** The male ordinal encoded in a combination number. */
  function MaleOrdinal(n: int): int
    requires 1 <= n <= 144
  {
    (n - 1) / 12 + 1
  }

  /** The female ordinal encoded in a combination number. */
  function FemaleOrdinal(n: int): int
    requires 1 <= n <= 144
  {
    (n - 1) % 12 + 1
  }

  /** calculate_combination_number: 12 * (male ordinal - 1) + female ordinal.
      The male label is looked up first, so when both are unregistered the
      KeyError names the male one. */
  function CombinationNumber(maleSign: string, femaleSign: string): (r: Result<int, LookupError>)
    ensures r.Ok? <==> maleSign in ZodiacIndexes && femaleSign in ZodiacIndexes
    ensures maleSign !in ZodiacIndexes ==> r == Err(KeyError(maleSign))
    ensures maleSign in ZodiacIndexes && femaleSign !in ZodiacIndexes ==> r == Err(KeyError(femaleSign))
    ensures r.Ok? ==> 1 <= r.value <= 144
    ensures r.Ok? ==> MaleOrdinal(r.value) == ZodiacIndexes[maleSign]
    ensures r.Ok? ==> FemaleOrdinal(r.value) == ZodiacIndexes[femaleSign]
  {
    if maleSign !in ZodiacIndexes then Err(KeyError(maleSign))
    else if femaleSign !in ZodiacIndexes then Err(KeyError(femaleSign))
    else
      OrdinalsInjective();
      Ok(12 * (ZodiacIndexes[maleSign] - 1) + ZodiacIndexes[femaleSign])
  }

  /** The number is "unique": distinct ordered pairs of registered signs get
      distinct numbers. */
  lemma CombinationInjective(m1: string, f1: string, m2: string, f2: string)
    requires m1 in ZodiacIndexes && f1 in ZodiacIndexes
    requires m2 in ZodiacIndexes && f2 in ZodiacIndexes
    requires CombinationNumber(m1, f1) == CombinationNumber(m2, f2)
    ensures m1 == m2 && f1 == f2
  {
    OrdinalsInjective();
  }

  /** Every number in 1..144 is the combination number of one ordered pair:
      the labels at declaration positions (n - 1) / 12 and (n - 1) % 12. */
  lemma CombinationSurjective(n: int)
    requires 1 <= n <= 144
    ensures CombinationNumber(SignLabels[(n - 1) / 12], SignLabels[(n - 1) % 12]) == Ok(n)
  {
    OrdinalsFollowDeclarationOrder();
    var m, f := SignLabels[(n - 1) / 12], SignLabels[(n - 1) % 12];
    assert ZodiacIndexes[m] == (n - 1) / 12 + 1 && ZodiacIndexes[f] == (n - 1) % 12 + 1;
  }

  /** Concrete values: the two pairs of the regression tests, the reversed pair
      (order matters) and an unregistered label in either position. */
  lemma CombinationExamples()
    ensures CombinationNumber("♈ Овен", "♉ Телец") == Ok(2)
    ensures CombinationNumber("♑ Козерог", "♒ Водолей") == Ok(119)
    ensures CombinationNumber("♉ Телец", "♈ Овен") == Ok(13)
    ensures CombinationNumber("Несуществующий знак", "♉ Телец") == Err(KeyError("Несуществующий знак"))
    ensures CombinationNumber("♈ Овен", "Несуществующий знак") == Err(KeyError("Несуществующий знак"))
  {
  }
}
