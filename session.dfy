/**
 * The bot's global `user_states` dict and its two handlers, `start` and
 * `handle_message`, written as the step-by-step updates the handlers make.
 */
module Session {
  import opened Wrappers
  import opened Text
  import opened Pricing
  import opened Conversation

  class Bot {
    /** `user_states`: user id to that user's dict. */
    var userStates: map<int, Entry>

    ghost predicate Valid()
      reads this
    {
      AllWellFormed(userStates)
    }

    constructor ()
      ensures Valid() && userStates == map[]
    {
      userStates := map[];
    }

    /** `/start`: the user's dict is replaced by one with no step and no answers. */
    method Start(uid: int)
      requires Valid()
      modifies this
      ensures Valid()
      ensures userStates == old(userStates)[uid := Blank]
    {
      userStates := userStates[uid := Blank];
    }

    /**
     * A text message from `uid`. The dict it works on is the stored one when
     * there is one, and a fresh one that is never stored otherwise; every
     * change to a stored dict is written back to `userStates`.
     */
    method HandleMessage(uid: int, text: string) returns (reply: Reply)
      requires Valid()
      modifies this
      ensures Valid()
      ensures Delivery(userStates, reply) == Deliver(old(userStates), uid, text)
    {
      var stored := uid in userStates;
      var userData := if stored then userStates[uid] else Blank;
      var step := userData.step;

      if text == EstimateMenu {
        userData := userData.(step := Some(Age));
        if stored {
          userStates := userStates[uid := userData];
        }
        return AskAge;
      } else if text == HistoryMenu {
        return ComingSoon;
      }

      if step == Some(Age) {
        var age := ParseInt(text);
        if age.None? { return InvalidNumber; }
        userData := userData.(answers := userData.answers[Age := Num(age.value)]);
        userData := userData.(step := Some(LicenseYear));
        reply := AskLicenseYear;
      } else if step == Some(LicenseYear) {
        var licenseYear := ParseInt(text);
        if licenseYear.None? { return InvalidNumber; }
        userData := userData.(answers := userData.answers[LicenseYear := Num(licenseYear.value)]);
        userData := userData.(step := Some(CarYear));
        reply := AskCarYear;
      } else if step == Some(CarYear) {
        var carYear := ParseInt(text);
        if carYear.None? { return InvalidNumber; }
        userData := userData.(answers := userData.answers[CarYear := Num(carYear.value)]);
        userData := userData.(step := Some(EngineSize));
        reply := AskEngineSize;
      } else if step == Some(EngineSize) {
        var engineSize := ParseInt(text);
        if engineSize.None? { return InvalidNumber; }
        userData := userData.(answers := userData.answers[EngineSize := Num(engineSize.value)]);
        userData := userData.(step := Some(Fuel));
        reply := AskFuel;
      } else if step == Some(Fuel) {
        userData := userData.(answers := userData.answers[Fuel := Str(Lower(text))]);
        userData := userData.(step := Some(Owners));
        reply := AskOwners;
      } else if step == Some(Owners) {
        var owners := ParseInt(text);
        if owners.None? { return InvalidNumber; }
        var answers := userData.answers[Owners := Num(owners.value)];
        var total := Premium(answers[Age].n, answers[LicenseYear].n, answers[CarYear].n,
                             answers[EngineSize].n, answers[Fuel].s, answers[Owners].n);
        userStates := userStates - {uid};
        return Estimate(total);
      } else {
        return PleaseStart;
      }

      if stored {
        userStates := userStates[uid := userData];
      }
    }
  }
}
