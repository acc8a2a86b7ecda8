/**
 * What one incoming chat message does to the per-user conversation state:
 * the two menu texts, then the six questions asked in a fixed order, the
 * estimate on the last answer, and the fallback reply.
 */
module Conversation {
  import opened Wrappers
  import opened Text
  import opened Pricing

  const EstimateMenu := "🚗 Estimate Insurance"
  const HistoryMenu := "🔍 Check Car History (coming soon)"

  /** The value of the `"step"` key: the question the user is expected to answer next. */
  datatype Step = Age | LicenseYear | CarYear | EngineSize | Fuel | Owners

  /** Position of a question in the fixed order. */
  function Index(s: Step): nat
  {
    match s
    case Age => 0
    case LicenseYear => 1
    case CarYear => 2
    case EngineSize => 3
    case Fuel => 4
    case Owners => 5
  }

  /** The questions asked before `s`. */
  function Earlier(s: Step): (r: set<Step>)
    ensures forall t :: t in r <==> Index(t) < Index(s)
  {
    match s
    case Age => {}
    case LicenseYear => {Age}
    case CarYear => {Age, LicenseYear}
    case EngineSize => {Age, LicenseYear, CarYear}
    case Fuel => {Age, LicenseYear, CarYear, EngineSize}
    case Owners => {Age, LicenseYear, CarYear, EngineSize, Fuel}
  }

  /** The question asked after `s`; `None` after the last one. */
  function Successor(s: Step): (r: Option<Step>)
    ensures r.Some? <==> s != Owners
    ensures r.Some? ==> Index(r.value) == Index(s) + 1
  {
    match s
    case Age => Some(LicenseYear)
    case LicenseYear => Some(CarYear)
    case CarYear => Some(EngineSize)
    case EngineSize => Some(Fuel)
    case Fuel => Some(Owners)
    case Owners => None
  }

  /** A stored answer: `int(text)` for numeric questions, `text.lower()` for the fuel. */
  datatype Value = Num(n: int) | Str(s: string)

  /**
   * The per-user dict: its `"step"` entry and the answers stored under the
   * questions' keys. `{}` and `{"step": None}` behave alike and are both `Blank`.
   */
  datatype Entry = Entry(step: Option<Step>, answers: map<Step, Value>)

  const Blank := Entry(None, map[])

  predicate KindOk(s: Step, v: Value)
  {
    if s == Fuel then v.Str? else v.Num?
  }

  /**
   * Every stored answer has its question's kind, and every question before
   * the current step has been answered.
   */
  predicate WellFormed(e: Entry)
  {
    && (forall s {:trigger e.answers[s]} :: s in e.answers ==> KindOk(s, e.answers[s]))
    && (e.step.Some? ==> Earlier(e.step.value) <= e.answers.Keys)
  }

  predicate AllWellFormed(states: map<int, Entry>)
  {
    forall u :: u in states ==> WellFormed(states[u])
  }

  /** What the bot sends back; `InvalidNumber` is the `ValueError` raised by `int(text)`. */
  datatype Reply =
    | AskAge | AskLicenseYear | AskCarYear | AskEngineSize | AskFuel | AskOwners
    | ComingSoon | Estimate(total: int) | PleaseStart | InvalidNumber

  /** The prompt that asks question `s`. */
  function Prompt(s: Step): Reply
  {
    match s
    case Age => AskAge
    case LicenseYear => AskLicenseYear
    case CarYear => AskCarYear
    case EngineSize => AskEngineSize
    case Fuel => AskFuel
    case Owners => AskOwners
  }

  predicate IsMenu(text: string)
  {
    text == EstimateMenu || text == HistoryMenu
  }

  /** The premium for the collected answers and the owner count just given. */
  function EstimateFor(answers: map<Step, Value>, owners: int): int
    requires Age in answers && answers[Age].Num? && LicenseYear in answers && answers[LicenseYear].Num?
    requires CarYear in answers && answers[CarYear].Num? && EngineSize in answers && answers[EngineSize].Num?
    requires Fuel in answers && answers[Fuel].Str?
  {
    Premium(answers[Age].n, answers[LicenseYear].n, answers[CarYear].n, answers[EngineSize].n,
            answers[Fuel].s, owners)
  }

  /** The new per-user dict (`None` once it is removed) and the reply. */
  datatype Effect = Effect(entry: Option<Entry>, reply: Reply)

  /** One message from a user whose dict is `e`. */
  function React(e: Entry, text: string): (r: Effect)
    requires WellFormed(e)
    ensures r.entry.Some? ==> WellFormed(r.entry.value)
  {
    if text == EstimateMenu then Effect(Some(e.(step := Some(Age))), AskAge)
    else if text == HistoryMenu then Effect(Some(e), ComingSoon)
    else match e.step
      case None => Effect(Some(e), PleaseStart)
      case Some(s) =>
        if s == Fuel then
          Effect(Some(Entry(Some(Owners), e.answers[Fuel := Str(Lower(text))])), AskOwners)
        else match ParseInt(text)
          case None => Effect(Some(e), InvalidNumber)
          case Some(n) =>
            if s == Owners then Effect(None, Estimate(EstimateFor(e.answers, n)))
            else Effect(Some(Entry(Successor(s), e.answers[s := Num(n)])), Prompt(Successor(s).value))
  }

  /** The whole `user_states` dict after one message, and the reply. */
  datatype Delivery = Delivery(states: map<int, Entry>, reply: Reply)

  /**
   * `handle_message` for user `uid`. A user without an entry works on a fresh
   * dict that is never stored, so the map is unchanged for them.
   */
  function Deliver(states: map<int, Entry>, uid: int, text: string): (d: Delivery)
    requires AllWellFormed(states)
    ensures AllWellFormed(d.states)
    ensures uid !in states ==> d.states == states
    ensures d.states - {uid} == states - {uid}
  {
    if uid in states then
      var r := React(states[uid], text);
      Delivery(if r.entry.Some? then states[uid := r.entry.value] else states - {uid}, r.reply)
    else
      Delivery(states, React(Blank, text).reply)
  }

  /** The state and the replies after `uid` sends `texts` one after the other. */
  datatype Transcript = Transcript(states: map<int, Entry>, replies: seq<Reply>)

  function Run(states: map<int, Entry>, uid: int, texts: seq<string>): (t: Transcript)
    requires AllWellFormed(states)
    ensures AllWellFormed(t.states)
    ensures |t.replies| == |texts|
    ensures t.states - {uid} == states - {uid}
    decreases |texts|
  {
    if texts == [] then Transcript(states, [])
    else
      var d := Deliver(states, uid, texts[0]);
      var rest := Run(d.states, uid, texts[1..]);
      Transcript(rest.states, [d.reply] + rest.replies)
  }

  /** The estimate menu text moves any entry back to the first question and keeps its answers. */
  lemma EstimateMenuRestarts(e: Entry)
    requires WellFormed(e)
    ensures React(e, EstimateMenu).reply == AskAge
    ensures React(e, EstimateMenu).entry.Some?
    ensures React(e, EstimateMenu).entry.value.step == Some(Age)
    ensures React(e, EstimateMenu).entry.value.answers == e.answers
  {
  }

  /** The history menu text changes nothing, whatever the step. */
  lemma HistoryMenuUnchanged(e: Entry)
    requires WellFormed(e)
    ensures React(e, HistoryMenu) == Effect(Some(e), ComingSoon)
  {
  }

  /** Any other text with no step pending changes nothing and asks for /start or the menu. */
  lemma NoStepFallback(e: Entry, text: string)
    requires WellFormed(e) && e.step == None && !IsMenu(text)
    ensures React(e, text) == Effect(Some(e), PleaseStart)
  {
  }

  /**
   * A numeric answer that parses is stored under the current question, the
   * step moves to the next question, and no other answer changes.
   */
  lemma ParsedAnswerAdvances(e: Entry, text: string, n: int)
    requires WellFormed(e) && e.step.Some? && e.step.value != Fuel && e.step.value != Owners
    requires !IsMenu(text) && ParseInt(text) == Some(n)
    ensures var r := React(e, text);
      && r.entry.Some?
      && Index(r.entry.value.step.value) == Index(e.step.value) + 1
      && r.entry.value.answers.Keys == e.answers.Keys + {e.step.value}
      && r.entry.value.answers[e.step.value] == Num(n)
      && (forall t :: t in e.answers && t != e.step.value ==> r.entry.value.answers[t] == e.answers[t])
      && r.reply == Prompt(r.entry.value.step.value)
  {
  }

  /**
   * Any non-menu text answers the fuel question: it is stored lower-cased,
   * without validation, and the owners question comes next.
   */
  lemma FuelStoredUnvalidated(e: Entry, text: string)
    requires WellFormed(e) && e.step == Some(Fuel) && !IsMenu(text)
    ensures var r := React(e, text);
      && r.entry.Some?
      && r.entry.value.step == Some(Owners)
      && r.entry.value.answers.Keys == e.answers.Keys + {Fuel}
      && r.entry.value.answers[Fuel] == Str(Lower(text))
      && (forall t :: t in e.answers && t != Fuel ==> r.entry.value.answers[t] == e.answers[t])
      && r.reply == AskOwners
  {
  }

  /** An answer `int(...)` rejects leaves the step and every stored answer as they were. */
  lemma UnparseableUnchanged(e: Entry, text: string)
    requires WellFormed(e) && e.step.Some? && e.step.value != Fuel
    requires !IsMenu(text) && ParseInt(text) == None
    ensures React(e, text) == Effect(Some(e), InvalidNumber)
  {
  }

  /**
   * A parseable owner count removes the entry and replies with the premium
   * of the collected answers, which lies in [700, 2000].
   */
  lemma OwnersCompletes(e: Entry, text: string, n: int)
    requires WellFormed(e) && e.step == Some(Owners)
    requires !IsMenu(text) && ParseInt(text) == Some(n)
    ensures React(e, text).entry == None
    ensures React(e, text).reply.Estimate?
    ensures React(e, text).reply.total
         == Premium(e.answers[Age].n, e.answers[LicenseYear].n, e.answers[CarYear].n,
                    e.answers[EngineSize].n, e.answers[Fuel].s, n)
    ensures 700 <= React(e, text).reply.total <= 2000
  {
  }

  /** A user whose entry was removed (or who never ran /start) is asked to use the menu. */
  lemma AbsentUserNotServed(states: map<int, Entry>, uid: int, text: string)
    requires AllWellFormed(states) && uid !in states
    ensures Deliver(states, uid, text).states == states
    ensures Deliver(states, uid, text).reply
         == (if text == EstimateMenu then AskAge else if text == HistoryMenu then ComingSoon else PleaseStart)
  {
  }

  /** The state changes only where the sender's own entry is replaced or removed. */
  lemma DeliverFrame(states: map<int, Entry>, uid: int, text: string)
    requires AllWellFormed(states) && uid in states
    ensures var d := Deliver(states, uid, text);
      (uid in d.states <==> React(states[uid], text).entry.Some?)
      && (uid in d.states ==> d.states[uid] == React(states[uid], text).entry.value)
  {
  }

  /** The first character of a rendered integer is a digit or a minus sign. */
  lemma ShowIsNotMenu(n: int)
    ensures !IsMenu(Show(n))
  {
    var s := Show(n);
    assert s[0] == '-' || IsDigit(s[0]);
    assert EstimateMenu[0] != '-' && !IsDigit(EstimateMenu[0]);
    assert HistoryMenu[0] != '-' && !IsDigit(HistoryMenu[0]);
  }

  /** One message more at the front of a run: the first reply, then the rest of the run. */
  lemma RunFirst(states: map<int, Entry>, uid: int, texts: seq<string>, d: Delivery, rest: Transcript)
    requires AllWellFormed(states) && |texts| > 0
    requires d == Deliver(states, uid, texts[0])
    requires rest == Run(d.states, uid, texts[1..])
    ensures Run(states, uid, texts) == Transcript(rest.states, [d.reply] + rest.replies)
  {
  }

  /** `text` is an answer `int(...)` reads as `n` and not one of the menu texts. */
  predicate ParsesAs(text: string, n: int)
  {
    !IsMenu(text) && ParseInt(text) == Some(n)
  }

  /** Every rendered integer is read back as itself. */
  lemma ShowParses(n: int)
    ensures ParsesAs(Show(n), n)
  {
    ParseShow(n);
    ShowIsNotMenu(n);
  }

  /** A numeric answer to a question other than the last one. */
  lemma DeliverNumber(states: map<int, Entry>, uid: int, text: string, n: int, s: Step)
    requires AllWellFormed(states) && uid in states && states[uid].step == Some(s)
    requires s != Fuel && s != Owners && ParsesAs(text, n)
    ensures Deliver(states, uid, text)
         == Delivery(states[uid := Entry(Successor(s), states[uid].answers[s := Num(n)])], Prompt(Successor(s).value))
  {
  }

  /** A non-menu text answering the fuel question. */
  lemma DeliverFuel(states: map<int, Entry>, uid: int, fuel: string)
    requires AllWellFormed(states) && uid in states && states[uid].step == Some(Fuel) && !IsMenu(fuel)
    ensures Deliver(states, uid, fuel)
         == Delivery(states[uid := Entry(Some(Owners), states[uid].answers[Fuel := Str(Lower(fuel))])], AskOwners)
  {
  }

  /** A numeric answer to the owners question. */
  lemma DeliverOwners(states: map<int, Entry>, uid: int, text: string, n: int)
    requires AllWellFormed(states) && uid in states && states[uid].step == Some(Owners) && ParsesAs(text, n)
    ensures Deliver(states, uid, text) == Delivery(states - {uid}, Estimate(EstimateFor(states[uid].answers, n)))
  {
  }

  /** Two runs back to back are one run over the concatenated messages. */
  lemma {:induction false} RunAppend(states: map<int, Entry>, uid: int, a: seq<string>, b: seq<string>)
    requires AllWellFormed(states)
    ensures var first := Run(states, uid, a);
      var second := Run(first.states, uid, b);
      Run(states, uid, a + b) == Transcript(second.states, first.replies + second.replies)
    decreases |a|
  {
    if a != [] {
      var d := Deliver(states, uid, a[0]);
      assert (a + b)[0] == a[0] && (a + b)[1..] == a[1..] + b;
      RunAppend(d.states, uid, a[1..], b);
      var first := Run(d.states, uid, a[1..]);
      var second := Run(first.states, uid, b);
      assert [d.reply] + (first.replies + second.replies) == ([d.reply] + first.replies) + second.replies;
    } else {
      assert a + b == b;
    }
  }

  /** A run of one message. */
  lemma RunOne(states: map<int, Entry>, uid: int, text: string)
    requires AllWellFormed(states)
    ensures Run(states, uid, [text])
         == Transcript(Deliver(states, uid, text).states, [Deliver(states, uid, text).reply])
  {
    assert [text][1..] == [];
  }

  /** Menu text then answers to the first two questions. */
  lemma CollectFirst(states: map<int, Entry>, uid: int, ageText: string, age: int, licenseText: string, licenseYear: int)
    requires AllWellFormed(states) && uid in states && ParsesAs(ageText, age) && ParsesAs(licenseText, licenseYear)
    ensures Run(states, uid, [EstimateMenu, ageText, licenseText])
         == Transcript(states[uid := Entry(Some(CarYear), states[uid].answers[Age := Num(age)][LicenseYear := Num(licenseYear)])],
                       [AskAge, AskLicenseYear, AskCarYear])
  {
    var s0 := states[uid := states[uid].(step := Some(Age))];
    assert Deliver(states, uid, EstimateMenu) == Delivery(s0, AskAge);
    var s1 := s0[uid := Entry(Some(LicenseYear), s0[uid].answers[Age := Num(age)])];
    DeliverNumber(s0, uid, ageText, age, Age);
    var s2 := s1[uid := Entry(Some(CarYear), s1[uid].answers[LicenseYear := Num(licenseYear)])];
    DeliverNumber(s1, uid, licenseText, licenseYear, LicenseYear);
    RunOne(states, uid, EstimateMenu);
    RunOne(s0, uid, ageText);
    RunOne(s1, uid, licenseText);
    RunAppend(s0, uid, [ageText], [licenseText]);
    RunAppend(states, uid, [EstimateMenu], [ageText, licenseText]);
    assert [EstimateMenu] + [ageText, licenseText] == [EstimateMenu, ageText, licenseText];
    assert [ageText] + [licenseText] == [ageText, licenseText];
  }

  /** Answers to the car-year and engine-size questions. */
  lemma CollectSecond(states: map<int, Entry>, uid: int, carText: string, carYear: int, engineText: string, engineSize: int)
    requires AllWellFormed(states) && uid in states && states[uid].step == Some(CarYear)
    requires ParsesAs(carText, carYear) && ParsesAs(engineText, engineSize)
    ensures Run(states, uid, [carText, engineText])
         == Transcript(states[uid := Entry(Some(Fuel), states[uid].answers[CarYear := Num(carYear)][EngineSize := Num(engineSize)])],
                       [AskEngineSize, AskFuel])
  {
    var s1 := states[uid := Entry(Some(EngineSize), states[uid].answers[CarYear := Num(carYear)])];
    DeliverNumber(states, uid, carText, carYear, CarYear);
    DeliverNumber(s1, uid, engineText, engineSize, EngineSize);
    RunOne(states, uid, carText);
    RunOne(s1, uid, engineText);
    RunAppend(states, uid, [carText], [engineText]);
    assert [carText] + [engineText] == [carText, engineText];
  }

  /** Menu text then the four numeric answers before the fuel question. */
  lemma CollectNumbers(states: map<int, Entry>, uid: int, ageText: string, age: int, licenseText: string, licenseYear: int,
                       carText: string, carYear: int, engineText: string, engineSize: int)
    requires AllWellFormed(states) && uid in states
    requires ParsesAs(ageText, age) && ParsesAs(licenseText, licenseYear) && ParsesAs(carText, carYear) && ParsesAs(engineText, engineSize)
    ensures Run(states, uid, [EstimateMenu, ageText, licenseText, carText, engineText])
         == Transcript(states[uid := Entry(Some(Fuel), states[uid].answers[Age := Num(age)][LicenseYear := Num(licenseYear)]
                                                                          [CarYear := Num(carYear)][EngineSize := Num(engineSize)])],
                       [AskAge, AskLicenseYear, AskCarYear, AskEngineSize, AskFuel])
  {
    var first := [EstimateMenu, ageText, licenseText];
    var second := [carText, engineText];
    assert first + second == [EstimateMenu, ageText, licenseText, carText, engineText];
    CollectFirst(states, uid, ageText, age, licenseText, licenseYear);
    var s1 := Run(states, uid, first).states;
    CollectSecond(s1, uid, carText, carYear, engineText, engineSize);
    RunAppend(states, uid, first, second);
    assert [AskAge, AskLicenseYear, AskCarYear] + [AskEngineSize, AskFuel]
        == [AskAge, AskLicenseYear, AskCarYear, AskEngineSize, AskFuel];
  }

  /** The fuel answer and a numeric owner count finish the flow. */
  lemma FinishFlow(states: map<int, Entry>, uid: int, fuel: string, ownersText: string, owners: int)
    requires AllWellFormed(states) && uid in states && states[uid].step == Some(Fuel)
    requires !IsMenu(fuel) && ParsesAs(ownersText, owners)
    ensures Run(states, uid, [fuel, ownersText])
         == Transcript(states - {uid}, [AskOwners, Estimate(EstimateFor(states[uid].answers[Fuel := Str(Lower(fuel))], owners))])
  {
    var s1 := states[uid := Entry(Some(Owners), states[uid].answers[Fuel := Str(Lower(fuel))])];
    DeliverFuel(states, uid, fuel);
    DeliverOwners(s1, uid, ownersText, owners);
    assert s1 - {uid} == states - {uid};
    RunOne(states, uid, fuel);
    RunOne(s1, uid, ownersText);
    RunAppend(states, uid, [fuel], [ownersText]);
    assert [fuel] + [ownersText] == [fuel, ownersText];
  }

  /**
   * The whole insurance flow: after the estimate menu text, six answers in
   * order lead to the premium of those answers, the sender's entry is gone,
   * and no other user's entry has changed.
   */
  lemma {:induction false} FullEstimate(states: map<int, Entry>, uid: int,
                                        ageText: string, age: int, licenseText: string, licenseYear: int,
                                        carText: string, carYear: int, engineText: string, engineSize: int,
                                        fuel: string, ownersText: string, owners: int)
    requires AllWellFormed(states) && uid in states
    requires ParsesAs(ageText, age) && ParsesAs(licenseText, licenseYear) && ParsesAs(carText, carYear)
    requires ParsesAs(engineText, engineSize) && !IsMenu(fuel) && ParsesAs(ownersText, owners)
    ensures Run(states, uid, [EstimateMenu, ageText, licenseText, carText, engineText, fuel, ownersText])
         == Transcript(states - {uid},
                       [AskAge, AskLicenseYear, AskCarYear, AskEngineSize, AskFuel, AskOwners,
                        Estimate(Premium(age, licenseYear, carYear, engineSize, Lower(fuel), owners))])
  {
    var first := [EstimateMenu, ageText, licenseText, carText, engineText];
    var second := [fuel, ownersText];
    assert first + second == [EstimateMenu, ageText, licenseText, carText, engineText, fuel, ownersText];
    CollectNumbers(states, uid, ageText, age, licenseText, licenseYear, carText, carYear, engineText, engineSize);
    var s1 := Run(states, uid, first).states;
    FinishFlow(s1, uid, fuel, ownersText, owners);
    assert s1 - {uid} == states - {uid};
    assert EstimateFor(s1[uid].answers[Fuel := Str(Lower(fuel))], owners)
        == Premium(age, licenseYear, carYear, engineSize, Lower(fuel), owners);
    RunAppend(states, uid, first, second);
  }

  /** The same flow with every numeric answer written in decimal. */
  lemma DecimalEstimate(states: map<int, Entry>, uid: int, age: int, licenseYear: int, carYear: int,
                        engineSize: int, fuel: string, owners: int)
    requires AllWellFormed(states) && uid in states && !IsMenu(fuel)
    ensures Run(states, uid, [EstimateMenu, Show(age), Show(licenseYear), Show(carYear), Show(engineSize), fuel, Show(owners)])
         == Transcript(states - {uid},
                       [AskAge, AskLicenseYear, AskCarYear, AskEngineSize, AskFuel, AskOwners,
                        Estimate(Premium(age, licenseYear, carYear, engineSize, Lower(fuel), owners))])
  {
    ShowParses(age); ShowParses(licenseYear); ShowParses(carYear); ShowParses(engineSize); ShowParses(owners);
    FullEstimate(states, uid, Show(age), age, Show(licenseYear), licenseYear, Show(carYear), carYear,
                 Show(engineSize), engineSize, fuel, Show(owners), owners);
  }

  /**
   * Once an estimate is delivered the entry is gone: choosing the estimate
   * menu again is answered with the age prompt, but nothing is stored, so the
   * age that follows is answered with the request to use /start.
   */
  lemma EstimateAgainIgnored(states: map<int, Entry>, uid: int, ageText: string)
    requires AllWellFormed(states) && uid !in states && !IsMenu(ageText)
    ensures Run(states, uid, [EstimateMenu, ageText]) == Transcript(states, [AskAge, PleaseStart])
  {
    var d := Deliver(states, uid, EstimateMenu);
    assert d == Delivery(states, AskAge);
    RunOne(states, uid, ageText);
    RunFirst(states, uid, [EstimateMenu, ageText], d, Run(states, uid, [ageText]));
  }
}
