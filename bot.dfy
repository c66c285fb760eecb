/** The conversation of bot.py: the handlers that read and update the user's
    data (the stored sign and male sign) and return the next state, and the
    ConversationHandler wiring of main that decides which handler an incoming
    message reaches. Telegram transport, keyboards' layout and the HTTP
    fetches are outside the model; the two fetches are passed in as
    functions. */
module Bot {
  import opened Wrappers
  import opened Zodiac
  import opened Compatibility

  /** The conversation states SELECT_SIGN, SELECT_OPTION,
      SELECT_COMPATIBILITY_MALE, SELECT_COMPATIBILITY_FEMALE (0..3) and
      ConversationHandler.END, which is also where a user stands before /start. */
  datatype State = AwaitSign | AwaitOption | AwaitMaleSign | AwaitFemaleSign | Ended {
    /** The integer the handlers return for this state. */
    function Code(): int {
      match this
      case AwaitSign => 0
      case AwaitOption => 1
      case AwaitMaleSign => 2
      case AwaitFemaleSign => 3
      case Ended => -1
    }
  }

  /** An incoming message: a bot command (its name, without the slash) or
      plain text. */
  datatype Input = Command(name: string) | Text(text: string)

  /** The reply keyboard sent with a message: none, one button per sign, or
      the six-action menu. */
  datatype Markup = NoMarkup | SignKeyboard | OptionKeyboard

  /** What a reply says. Fetched and looked-up content is carried as it is;
      the fixed texts are named, and `Wording` gives their wording. */
  datatype Message =
    | Greeting                    // start's sign prompt
    | PleaseWait                  // select_sign on an unregistered text
    | SignChosen(sign: string)    // select_sign's confirmation
    | Content(text: string)       // a fetched horoscope or compatibility reading
    | Description(stored: Option<string>)  // ZODIAC_INFO.get(stored, fallback)
    | ChooseOption                // select_option on an unknown label
    | ChooseMale                  // select_compatibility_male's prompt
    | ChooseFromList              // an unregistered sign in the compatibility flow
    | MaleSignChosen(sign: string)  // select_compatibility_female's confirmation
    | MenuPrompt                  // compatibility_result's closing menu prompt
    | Farewell                    // cancel
  {
    /** The text the bot sends. */
    function Wording(): string {
      match this
      case Greeting => "🌟 Привет! Выберите ваш знак зодиака:"
      case PleaseWait => "⏳ Пожалуйста, подождите немного перед следующим сообщением."
      case SignChosen(sign) => "Вы выбрали " + sign + ". Что вас интересует?"
      case Content(text) => text
      case Description(stored) =>
        if stored.Some? && stored.value in ZodiacInfo then ZodiacInfo[stored.value] else "Информация о знаке недоступна."
      case ChooseOption => "🚫 Пожалуйста, выберите опцию из списка."
      case ChooseMale => "Выберите знак мужчины:"
      case ChooseFromList => "Пожалуйста, выберите знак из предложенного списка."
      case MaleSignChosen(sign) => "Вы выбрали " + sign + ". Теперь выберите знак женщины:"
      case MenuPrompt => "Что вас интересует?"
      case Farewell => "👋 До свидания!"
    }
  }

  /** One outgoing message. */
  datatype Reply = Reply(message: Message, markup: Markup)

  const TodayChoice := "🔮 Гороскоп на сегодня"
  const WeekChoice := "📅 Гороскоп на неделю"
  const MonthChoice := "🌙 Гороскоп на месяц"
  const ChangeSignChoice := "♻️ Сменить знак"
  const InfoChoice := "ℹ️ Информация о знаке"
  const CompatibilityChoice := "💑 Совместимость"

  /** The six labels of the action menu. */
  const MenuChoices: set<string> :=
    {TodayChoice, WeekChoice, MonthChoice, ChangeSignChoice, InfoChoice, CompatibilityChoice}

  /** The three horoscope actions. */
  const HoroscopeChoices: set<string> := {TodayChoice, WeekChoice, MonthChoice}

  /** The description of a registered sign is its ZODIAC_INFO entry, never the
      fallback. */
  lemma DescriptionOfRegistered(name: string)
    requires name in ZodiacSigns
    ensures Description(Some(name)).Wording() == ZodiacInfo[name]
    ensures Description(Some(name)).Wording() != Description(None).Wording()
  {
  }

  /** One user's conversation: its current state and the two entries of
      `context.user_data` the handlers write. */
  class Conversation {
    var state: State
    var sign: Option<string>
    var maleSign: Option<string>

    /** Stored signs are always registered; every state after sign selection
        has a sign, and the female-selection state has a male sign. This is
        what keeps the table lookups of the handlers from raising. */
    ghost predicate Valid()
      reads this
    {
      && (sign.Some? ==> sign.value in ZodiacSigns)
      && (maleSign.Some? ==> maleSign.value in ZodiacSigns)
      && (state in {AwaitOption, AwaitMaleSign, AwaitFemaleSign} ==> sign.Some?)
      && (state == AwaitFemaleSign ==> maleSign.Some?)
    }

    /** A user who has not started a conversation and has no stored data. */
    constructor ()
      ensures Valid()
      ensures state == Ended && sign == None && maleSign == None
    {
      state := Ended;
      sign := None;
      maleSign := None;
    }

    /** start: offers the sign keyboard and moves to sign selection. */
    method Start() returns (next: State, replies: seq<Reply>)
      ensures next == AwaitSign && replies == [Reply(Greeting, SignKeyboard)]
    {
      next := AwaitSign;
      replies := [Reply(Greeting, SignKeyboard)];
    }

    /** select_sign: a registered sign is stored and the menu offered; anything
        else gets one reply and leaves the stored sign alone. */
    method SelectSign(text: string) returns (next: State, replies: seq<Reply>)
      modifies this`sign
      ensures text !in ZodiacSigns ==>
        next == AwaitSign && sign == old(sign) && replies == [Reply(PleaseWait, NoMarkup)]
      ensures text in ZodiacSigns ==>
        next == AwaitOption && sign == Some(text) && replies == [Reply(SignChosen(text), OptionKeyboard)]
    {
      if text !in ZodiacSigns {
        return AwaitSign, [Reply(PleaseWait, NoMarkup)];
      }
      sign := Some(text);
      next := AwaitOption;
      replies := [Reply(SignChosen(text), OptionKeyboard)];
    }

    /** select_option: dispatches on the six menu labels. A horoscope action
        looks the stored sign up in ZODIAC_SIGNS, which raises unless the sign
        is registered; the info action falls back when it is not. The stored
        sign is never changed. */
    method SelectOption(text: string, horoscope: (string, string) -> string)
      returns (next: State, replies: seq<Reply>)
      requires text in HoroscopeChoices ==> sign.Some? && sign.value in ZodiacSigns
      ensures text == TodayChoice ==>
        next == AwaitOption && replies == [Reply(Content(horoscope(ZodiacSigns[sign.value], "today")), NoMarkup)]
      ensures text == WeekChoice ==>
        next == AwaitOption && replies == [Reply(Content(horoscope(ZodiacSigns[sign.value], "week")), NoMarkup)]
      ensures text == MonthChoice ==>
        next == AwaitOption && replies == [Reply(Content(horoscope(ZodiacSigns[sign.value], "month")), NoMarkup)]
      ensures text == ChangeSignChoice ==>
        next == AwaitSign && replies == [Reply(Greeting, SignKeyboard)]
      ensures text == InfoChoice ==>
        next == AwaitOption &&
        replies == [Reply(Description(sign), NoMarkup)]
      ensures text == CompatibilityChoice ==>
        next == AwaitMaleSign && replies == [Reply(ChooseMale, SignKeyboard)]
      ensures text !in MenuChoices ==>
        next == AwaitOption && replies == [Reply(ChooseOption, NoMarkup)]
    {
      if text == TodayChoice {
        replies := [Reply(Content(horoscope(ZodiacSigns[sign.value], "today")), NoMarkup)];
      } else if text == WeekChoice {
        replies := [Reply(Content(horoscope(ZodiacSigns[sign.value], "week")), NoMarkup)];
      } else if text == MonthChoice {
        replies := [Reply(Content(horoscope(ZodiacSigns[sign.value], "month")), NoMarkup)];
      } else if text == ChangeSignChoice {
        next, replies := Start();
        return;
      } else if text == InfoChoice {
        replies := [Reply(Description(sign), NoMarkup)];
      } else if text == CompatibilityChoice {
        next, replies := SelectCompatibilityMale();
        return;
      } else {
        replies := [Reply(ChooseOption, NoMarkup)];
      }
      next := AwaitOption;
    }

    /** select_compatibility_male: only prompts for the male sign; it returns
        SELECT_COMPATIBILITY_MALE whatever the message said. */
    method SelectCompatibilityMale() returns (next: State, replies: seq<Reply>)
      ensures next == AwaitMaleSign && next.Code() == 2
      ensures replies == [Reply(ChooseMale, SignKeyboard)]
    {
      next := AwaitMaleSign;
      replies := [Reply(ChooseMale, SignKeyboard)];
    }

    /** select_compatibility_female, the handler of SELECT_COMPATIBILITY_MALE:
        a registered sign is stored as the male sign and the female sign is
        asked for; anything else is re-prompted in place. */
    method SelectCompatibilityFemale(text: string) returns (next: State, replies: seq<Reply>)
      modifies this`maleSign
      ensures text !in ZodiacSigns ==>
        next == AwaitMaleSign && maleSign == old(maleSign) && replies == [Reply(ChooseFromList, NoMarkup)]
      ensures text in ZodiacSigns ==>
        next == AwaitFemaleSign && maleSign == Some(text) && replies == [Reply(MaleSignChosen(text), SignKeyboard)]
    {
      if text !in ZodiacSigns {
        return AwaitMaleSign, [Reply(ChooseFromList, NoMarkup)];
      }
      maleSign := Some(text);
      next := AwaitFemaleSign;
      replies := [Reply(MaleSignChosen(text), SignKeyboard)];
    }

    /** compatibility_result, the handler of SELECT_COMPATIBILITY_FEMALE: an
        unregistered female sign is re-prompted and the state stays
        SELECT_COMPATIBILITY_FEMALE; a registered one yields the reading of the
        pair's page, then the menu, and moves back to SELECT_OPTION. The
        combination lookup raises unless a registered male sign is stored. */
    method CompatibilityResult(text: string, fetch: int -> Response)
      returns (next: State, replies: seq<Reply>)
      requires text in ZodiacSigns ==> maleSign.Some? && maleSign.value in ZodiacSigns
      ensures text !in ZodiacSigns ==>
        next == AwaitFemaleSign && replies == [Reply(ChooseFromList, NoMarkup)]
      ensures text in ZodiacSigns ==>
        next == AwaitOption &&
        CombinationNumber(maleSign.value, text).Ok? &&
        replies == [Reply(Content(Reading(fetch(CombinationNumber(maleSign.value, text).value))), NoMarkup),
                    Reply(MenuPrompt, OptionKeyboard)]
    {
      if text !in ZodiacSigns {
        return AwaitFemaleSign, [Reply(ChooseFromList, NoMarkup)];
      }
      RegisteredEverywhere(maleSign.value);
      RegisteredEverywhere(text);
      var compatibility := GetCompatibility(maleSign.value, text, fetch);
      next := AwaitOption;
      replies := [Reply(Content(compatibility.value), NoMarkup), Reply(MenuPrompt, OptionKeyboard)];
    }

    /** cancel: says goodbye and ends the conversation. */
    method Cancel() returns (next: State, replies: seq<Reply>)
      ensures next == Ended && next.Code() == -1
      ensures replies == [Reply(Farewell, NoMarkup)]
    {
      next := Ended;
      replies := [Reply(Farewell, NoMarkup)];
    }

    /** One incoming message, routed as main's ConversationHandler routes it:
        outside a conversation only /start is heard; inside one, plain text
        goes to the handler of the current state (note the shift: the male
        state is handled by select_compatibility_female and the female state by
        compatibility_result) and /cancel ends it from any state; anything
        else is not handled. The handler's result becomes the new state. */
    method Step(input: Input, horoscope: (string, string) -> string, fetch: int -> Response)
      returns (next: State, replies: seq<Reply>)
      requires Valid()
      modifies this
      ensures Valid() && state == next
      // outside a conversation
      ensures old(state) == Ended && input == Command("start") ==>
        next == AwaitSign && replies == [Reply(Greeting, SignKeyboard)]
      ensures old(state) == Ended && input != Command("start") ==>
        next == Ended && replies == []
      // commands inside a conversation
      ensures old(state) != Ended && input == Command("cancel") ==>
        next == Ended && replies == [Reply(Farewell, NoMarkup)]
      ensures old(state) != Ended && input.Command? && input.name != "cancel" ==>
        next == old(state) && replies == []
      // SELECT_SIGN
      ensures old(state) == AwaitSign && input.Text? && input.text !in ZodiacSigns ==>
        next == AwaitSign && |replies| == 1
      ensures old(state) == AwaitSign && input.Text? && input.text in ZodiacSigns ==>
        next == AwaitOption && sign == Some(input.text) && |replies| == 1
      // SELECT_OPTION
      ensures old(state) == AwaitOption && input.Text? && input.text in HoroscopeChoices ==>
        next == AwaitOption &&
        replies == [Reply(Content(horoscope(ZodiacSigns[sign.value],
          if input.text == TodayChoice then "today" else if input.text == WeekChoice then "week" else "month")), NoMarkup)]
      ensures old(state) == AwaitOption && input == Text(InfoChoice) ==>
        next == AwaitOption && sign.Some? && sign.value in ZodiacSigns &&
        replies == [Reply(Description(sign), NoMarkup)]
      ensures old(state) == AwaitOption && input == Text(ChangeSignChoice) ==>
        next == AwaitSign && replies == [Reply(Greeting, SignKeyboard)]
      ensures old(state) == AwaitOption && input == Text(CompatibilityChoice) ==>
        next == AwaitMaleSign && replies == [Reply(ChooseMale, SignKeyboard)]
      ensures old(state) == AwaitOption && input.Text? && input.text !in MenuChoices ==>
        next == AwaitOption && replies == [Reply(ChooseOption, NoMarkup)]
      // SELECT_COMPATIBILITY_MALE
      ensures old(state) == AwaitMaleSign && input.Text? && input.text !in ZodiacSigns ==>
        next == AwaitMaleSign && |replies| == 1
      ensures old(state) == AwaitMaleSign && input.Text? && input.text in ZodiacSigns ==>
        next == AwaitFemaleSign && maleSign == Some(input.text) && |replies| == 1
      // SELECT_COMPATIBILITY_FEMALE
      ensures old(state) == AwaitFemaleSign && input.Text? && input.text !in ZodiacSigns ==>
        next == AwaitFemaleSign && |replies| == 1
      ensures old(state) == AwaitFemaleSign && input.Text? && input.text in ZodiacSigns ==>
        next == AwaitOption && maleSign == old(maleSign) && maleSign.Some? &&
        CombinationNumber(maleSign.value, input.text).Ok? &&
        replies == [Reply(Content(Reading(fetch(CombinationNumber(maleSign.value, input.text).value))), NoMarkup),
                    Reply(MenuPrompt, OptionKeyboard)]
      // what the user's data keeps
      ensures !(old(state) == AwaitSign && input.Text? && input.text in ZodiacSigns) ==> sign == old(sign)
      ensures !(old(state) == AwaitMaleSign && input.Text? && input.text in ZodiacSigns) ==> maleSign == old(maleSign)
    {
      match input {
        case Command(name) =>
          if state == Ended && name == "start" {
            next, replies := Start();
          } else if state != Ended && name == "cancel" {
            next, replies := Cancel();
          } else {
            next, replies := state, [];
          }
        case Text(text) =>
          match state {
            case Ended =>
              next, replies := state, [];
            case AwaitSign =>
              next, replies := SelectSign(text);
            case AwaitOption =>
              next, replies := SelectOption(text, horoscope);
            case AwaitMaleSign =>
              next, replies := SelectCompatibilityFemale(text);
            case AwaitFemaleSign =>
              next, replies := CompatibilityResult(text, fetch);
          }
      }
      state := next;
    }
  }

  /** select_option as test_bot.py drives it: a horoscope action and an
      unknown label both stay in SELECT_OPTION (code 1). */
  method SelectOptionScenario()
  {
    var horoscope := (id: string, period: string) => "Это тестовый гороскоп.";
    var c := new Conversation();
    c.sign := Some("♈ Овен");
    var next, replies := c.SelectOption(TodayChoice, horoscope);
    assert next.Code() == 1 && replies == [Reply(Content("Это тестовый гороскоп."), NoMarkup)];
    next, replies := c.SelectOption("Некорректная команда", horoscope);
    assert next.Code() == 1;
  }

  /** select_compatibility_male returns code 2; select_compatibility_female
      returns 3 on a sign and 2 on anything else. */
  method MaleSignScenario()
  {
    var c := new Conversation();
    var next, replies := c.SelectCompatibilityMale();
    assert next.Code() == 2;
    next, replies := c.SelectCompatibilityFemale("♉ Телец");
    assert next.Code() == 3;
    next, replies := c.SelectCompatibilityFemale("Несуществующий знак");
    assert next.Code() == 2 && c.maleSign == Some("♉ Телец");
  }

  /** compatibility_result returns 3 on an unknown female sign and 1 on a
      sign, whose first reply is the reading of the pair's page. */
  method CompatibilityResultScenario()
  {
    var fetch := (n: int) => Response(200, [Block(None, Some("Это тестовая совместимость."))]);
    var c := new Conversation();
    c.maleSign := Some("♈ Овен");
    var next, replies := c.CompatibilityResult("Несуществующий знак", fetch);
    assert next.Code() == 3;
    next, replies := c.CompatibilityResult("♉ Телец", fetch);
    assert next.Code() == 1 && replies[0] == Reply(Content("Это тестовая совместимость."), NoMarkup);
  }

  /** A conversation driven through Step: start, a sign, then cancel, which
      ends the conversation but keeps the stored sign. */
  method StepScenario()
  {
    var horoscope := (id: string, period: string) => "Это тестовый гороскоп.";
    var fetch := (n: int) => Response(200, []);
    var c := new Conversation();
    var next, replies := c.Step(Command("start"), horoscope, fetch);
    assert next.Code() == 0 && |replies| == 1;
    next, replies := c.Step(Text("♈ Овен"), horoscope, fetch);
    assert next.Code() == 1 && c.sign == Some("♈ Овен");
    next, replies := c.Step(Command("cancel"), horoscope, fetch);
    assert next.Code() == -1 && replies == [Reply(Farewell, NoMarkup)];
    assert c.sign == Some("♈ Овен");
  }
}
