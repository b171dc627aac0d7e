/**
 * The wallet ledger: the `users` and `transactions` tables of the bot's
 * SQLite database and the one operation that writes them.
 */
module Wallet {

  import opened Options

  /** Telegram's numeric user id, the primary key of `users`. */
  type UserId = int

  /** A row of `users`, stored under its `user_id` in `Ledger.users`. */
  datatype Account = Account(username: Option<string>, firstName: string, coins: int)

  /** The record `get_user_data` returns for a known user. */
  datatype UserData = UserData(userId: UserId, username: Option<string>, firstName: string, coins: int)

  /** A row of `transactions`. */
  datatype Transaction = Transaction(id: int, userId: UserId, amount: int, description: string, status: string)

  /** The column default of `transactions.status`; nothing ever sets another value. */
  const DefaultStatus: string := "pending"

  /** The first id an AUTOINCREMENT column hands out in an empty table. */
  const FirstId: int := 1

  /** The coins of `u`, or 0 when `users` has no row for `u`. */
  function CoinsOf(users: map<UserId, Account>, u: UserId): int {
    if u in users then users[u].coins else 0
  }

  /** The sum of `amount` over the rows of `log` that belong to `u`, whatever their status. */
  function Balance(log: seq<Transaction>, u: UserId): int {
    if log == [] then 0
    else (if log[0].userId == u then log[0].amount else 0) + Balance(log[1..], u)
  }

  /** Appending a row moves exactly its owner's balance, by exactly its amount. */
  lemma {:induction false} BalanceAppend(log: seq<Transaction>, t: Transaction, u: UserId)
    ensures Balance(log + [t], u) == Balance(log, u) + (if t.userId == u then t.amount else 0)
  {
    if log == [] {
      assert [t][1..] == [];
    } else {
      assert (log + [t])[1..] == log[1..] + [t];
      BalanceAppend(log[1..], t, u);
    }
  }

  /** A user with no rows in the log has balance 0. */
  lemma {:induction false} BalanceWithoutRows(log: seq<Transaction>, u: UserId)
    requires forall i :: 0 <= i < |log| ==> log[i].userId != u
    ensures Balance(log, u) == 0
  {
    if log != [] {
      BalanceWithoutRows(log[1..], u);
    }
  }

  /** Every user's `coins` is the sum of the amounts of that user's rows. */
  ghost predicate Conserved(users: map<UserId, Account>, log: seq<Transaction>) {
    forall u :: u in users ==> users[u].coins == Balance(log, u)
  }

  /** The foreign key of `transactions.user_id`: every row names an existing user. */
  ghost predicate KnownUsers(users: map<UserId, Account>, log: seq<Transaction>) {
    forall i :: 0 <= i < |log| ==> log[i].userId in users
  }

  /** AUTOINCREMENT: ids strictly increase in append order and all lie in [FirstId, nextId). */
  ghost predicate IdsIncreasing(log: seq<Transaction>, nextId: int) {
    && FirstId <= nextId
    && (forall i :: 0 <= i < |log| ==> FirstId <= log[i].id < nextId)
    && (forall i, j :: 0 <= i < j < |log| ==> log[i].id < log[j].id)
  }

  /** The invariant of the two tables together. */
  ghost predicate TablesValid(users: map<UserId, Account>, log: seq<Transaction>, nextId: int) {
    Conserved(users, log) && KnownUsers(users, log) && IdsIncreasing(log, nextId)
  }

  /**
   * The `INSERT ... ON CONFLICT(user_id) DO UPDATE` of `update_user_coins`:
   * a new user is inserted with `coins = amount`; an existing one gets the new
   * profile fields and `coins + amount`. No other row is touched.
   */
  function Upsert(users: map<UserId, Account>, u: UserId, username: Option<string>,
                  firstName: string, amount: int): (r: map<UserId, Account>)
    ensures r.Keys == users.Keys + {u}
    ensures u !in users ==> r[u] == Account(username, firstName, amount)
    ensures u in users ==> r[u] == Account(username, firstName, users[u].coins + amount)
    ensures forall v :: v in users && v != u ==> r[v] == users[v]
  {
    users[u := Account(username, firstName, CoinsOf(users, u) + amount)]
  }

  /** The row `update_user_coins` appends, with the id AUTOINCREMENT assigns and the default status. */
  function NewRow(id: int, u: UserId, amount: int, description: string): Transaction {
    Transaction(id, u, amount, description, DefaultStatus)
  }

  /** With the invariant, an unknown user owns no row and so has balance 0. */
  lemma UnknownUserHasZeroBalance(users: map<UserId, Account>, log: seq<Transaction>, nextId: int, u: UserId)
    requires TablesValid(users, log, nextId)
    requires u !in users
    ensures Balance(log, u) == 0
  {
    BalanceWithoutRows(log, u);
  }

  /**
   * Committing the upsert and the append together keeps the invariant:
   * coins still equal the log's sums, every row still names a user, ids still increase.
   */
  lemma CommitPreservesValid(users: map<UserId, Account>, log: seq<Transaction>, nextId: int,
                             u: UserId, username: Option<string>, firstName: string,
                             amount: int, description: string)
    requires TablesValid(users, log, nextId)
    ensures TablesValid(Upsert(users, u, username, firstName, amount),
                        log + [NewRow(nextId, u, amount, description)], nextId + 1)
  {
    var users' := Upsert(users, u, username, firstName, amount);
    var t := NewRow(nextId, u, amount, description);
    var log' := log + [t];
    forall v | v in users'
      ensures users'[v].coins == Balance(log', v)
    {
      BalanceAppend(log, t, v);
      if v == u && u !in users {
        UnknownUserHasZeroBalance(users, log, nextId, u);
      }
    }
    assert forall i :: 0 <= i < |log| ==> log'[i] == log[i];
  }

  /**
   * Nothing suppresses a duplicate: committing the same call twice raises the
   * user's coins and balance by twice the amount and adds two rows with distinct ids.
   */
  lemma ReplayAppliesTwice(users: map<UserId, Account>, log: seq<Transaction>, nextId: int,
                           u: UserId, username: Option<string>, firstName: string,
                           amount: int, description: string)
    requires TablesValid(users, log, nextId)
    ensures var users2 := Upsert(Upsert(users, u, username, firstName, amount), u, username, firstName, amount);
            var log2 := log + [NewRow(nextId, u, amount, description)] + [NewRow(nextId + 1, u, amount, description)];
            && TablesValid(users2, log2, nextId + 2)
            && users2[u].coins == CoinsOf(users, u) + 2 * amount
            && Balance(log2, u) == Balance(log, u) + 2 * amount
            && |log2| == |log| + 2
            && log2[|log|].id != log2[|log| + 1].id
  {
    var users1 := Upsert(users, u, username, firstName, amount);
    var log1 := log + [NewRow(nextId, u, amount, description)];
    CommitPreservesValid(users, log, nextId, u, username, firstName, amount, description);
    CommitPreservesValid(users1, log1, nextId + 1, u, username, firstName, amount, description);
    BalanceAppend(log, NewRow(nextId, u, amount, description), u);
    BalanceAppend(log1, NewRow(nextId + 1, u, amount, description), u);
  }

  /** The database `user_wallets.db`: the `users` table, the `transactions` table and the AUTOINCREMENT counter. */
  class Ledger {
    var users: map<UserId, Account>
    var log: seq<Transaction>
    var nextId: int

    ghost predicate Valid()
      reads this
    {
      TablesValid(users, log, nextId)
    }

    /** `init_db` on a database file that does not exist yet: both tables are created empty. */
    constructor ()
      ensures Valid()
      ensures users == map[] && log == [] && nextId == FirstId
    {
      users := map[];
      log := [];
      nextId := FirstId;
    }

    /**
     * `init_db` on an existing database: `CREATE TABLE IF NOT EXISTS` leaves both
     * tables as they were. With no `modifies` clause the frame already guarantees
     * this; the `ensures` states it for callers.
     */
    method InitDb()
      ensures unchanged(this)
    {
    }

    /** One committed call of `update_user_coins(u, username, firstName, amount, description)`. */
    twostate predicate AppliedOnce(u: UserId, username: Option<string>, firstName: string,
                                   amount: int, description: string)
      reads this
    {
      && users == Upsert(old(users), u, username, firstName, amount)
      && log == old(log) + [NewRow(old(nextId), u, amount, description)]
      && nextId == old(nextId) + 1
    }

    /**
     * Upserts the user, then appends one transaction row; both land in one commit,
     * so the invariant holds before and after.
     */
    method UpdateUserCoins(u: UserId, username: Option<string>, firstName: string,
                           amount: int, description: string)
      requires Valid()
      modifies this
      ensures Valid()
      ensures AppliedOnce(u, username, firstName, amount, description)
      ensures users[u].coins == old(CoinsOf(users, u)) + amount
      ensures Balance(log, u) == old(Balance(log, u)) + amount
    {
      CommitPreservesValid(users, log, nextId, u, username, firstName, amount, description);
      BalanceAppend(log, NewRow(nextId, u, amount, description), u);
      users := Upsert(users, u, username, firstName, amount);
      log := log + [NewRow(nextId, u, amount, description)];
      nextId := nextId + 1;
    }

    /** `get_user_data`: the user's current row, or None for an unknown id. */
    function GetUserData(u: UserId): (r: Option<UserData>)
      reads this
      ensures r.None? <==> u !in users
      ensures r.Some? ==> r.value.userId == u
      ensures r.Some? ==> r.value.username == users[u].username && r.value.firstName == users[u].firstName
      ensures r.Some? ==> r.value.coins == users[u].coins
    {
      if u in users then
        var a := users[u];
        Some(UserData(u, a.username, a.firstName, a.coins))
      else
        None
    }

    /** What `get_user_data` reports agrees with the log: found coins are the log's sum, unknown users sum to 0. */
    lemma GetUserDataMatchesLog(u: UserId)
      requires Valid()
      ensures GetUserData(u).Some? ==> GetUserData(u).value.coins == Balance(log, u)
      ensures GetUserData(u).None? ==> Balance(log, u) == 0
    {
      if u !in users {
        UnknownUserHasZeroBalance(users, log, nextId, u);
      }
    }
  }
}
