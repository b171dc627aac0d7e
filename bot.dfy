/** The bot's handlers that write the ledger, and what follows from their contracts. */
module Bot {

  import opened Options
  import opened Wallet
  import opened Events

  /** The fields of Telegram's `effective_user` that reach the ledger. */
  datatype TelegramUser = TelegramUser(id: UserId, username: Option<string>, firstName: string)

  /** `/start`: registers or touches the user with a zero amount; the balance does not move. */
  method Start(ledger: Ledger, user: TelegramUser)
    requires ledger.Valid()
    modifies ledger
    ensures ledger.Valid()
    ensures ledger.AppliedOnce(user.id, user.username, user.firstName, 0, RegistrationDescription)
    ensures ledger.users[user.id].coins == old(CoinsOf(ledger.users, user.id))
  {
    ledger.UpdateUserCoins(user.id, user.username, user.firstName, StartDelta.amount, StartDelta.description);
  }

  /**
   * Payload handler: a `complete_offer` payload is applied to the ledger and
   * its reward is what the confirmation reports (`earned`); any other payload
   * leaves the ledger untouched and sends nothing.
   */
  method WebAppData(ledger: Ledger, user: TelegramUser, p: Payload) returns (earned: Option<int>)
    requires ledger.Valid()
    modifies ledger
    ensures ledger.Valid()
    ensures earned.Some? <==> p.kind == Some(CompleteOffer)
    ensures p.kind != Some(CompleteOffer) ==> unchanged(ledger)
    ensures p.kind == Some(CompleteOffer) ==>
              && earned == Some(p.reward.GetOr(0))
              && ledger.AppliedOnce(user.id, user.username, user.firstName,
                                    p.reward.GetOr(0), OfferPrefix + OfferIdText(p.offerId))
  {
    match WebAppDelta(p)
    case None =>
      earned := None;
    case Some(d) =>
      ledger.UpdateUserCoins(user.id, user.username, user.firstName, d.amount, d.description);
      earned := Some(d.amount);
  }

  /**
   * A redelivered offer payload is applied again: the user is upserted twice, the
   * user's coins rise by twice the reward, and the log keeps its old rows and gains
   * two rows for the user with the reward, the same description and consecutive ids.
   */
  method RedeliveredOffer(ledger: Ledger, user: TelegramUser, p: Payload)
    requires ledger.Valid()
    requires p.kind == Some(CompleteOffer)
    modifies ledger
    ensures ledger.Valid()
    ensures user.id in ledger.users
    ensures ledger.users[user.id].coins == old(CoinsOf(ledger.users, user.id)) + 2 * p.reward.GetOr(0)
    ensures |ledger.log| == old(|ledger.log|) + 2
    ensures ledger.log[|ledger.log| - 2].description == ledger.log[|ledger.log| - 1].description
    ensures var r, d := p.reward.GetOr(0), OfferPrefix + OfferIdText(p.offerId);
            && ledger.users == Upsert(Upsert(old(ledger.users), user.id, user.username, user.firstName, r),
                                      user.id, user.username, user.firstName, r)
            && ledger.log == old(ledger.log) + [NewRow(old(ledger.nextId), user.id, r, d),
                                                NewRow(old(ledger.nextId) + 1, user.id, r, d)]
            && ledger.nextId == old(ledger.nextId) + 2
  {
    var first := WebAppData(ledger, user, p);
    var second := WebAppData(ledger, user, p);
  }

  /**
   * A fresh database; Ann starts the bot, the bot restarts (re-running `init_db`),
   * she completes offer 777 (reward 50), the same completion is delivered again,
   * then she completes offer 778 (reward 20).
   * Ann ends with 120 coins; user 999 was never seen.
   */
  method Scenario() returns (ann: Option<UserData>, stranger: Option<UserData>, rows: nat)
    ensures ann == Some(UserData(1, Some("ann"), "Ann", 120))
    ensures stranger == None
    ensures rows == 4
  {
    var ledger := new Ledger();
    var user := TelegramUser(1, Some("ann"), "Ann");
    Start(ledger, user);
    ledger.InitDb();
    var offer777 := Payload(Some(CompleteOffer), Some(50), Some("777"));
    var e1 := WebAppData(ledger, user, offer777);
    var e2 := WebAppData(ledger, user, offer777);
    var e3 := WebAppData(ledger, user, Payload(Some(CompleteOffer), Some(20), Some("778")));
    ann := ledger.GetUserData(1);
    stranger := ledger.GetUserData(999);
    rows := |ledger.log|;
  }
}
