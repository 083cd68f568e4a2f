/** The owner entries of the Redis store with expiry switched on: does the
    reverse index ever expire before an owner entry it must lead to? */
module RedisExpiry {
  import opened Base

  datatype Owner = Owner(account: int, exp: int)

  datatype Listing = Listing(fps: set<string>, exp: int)

  /** Owner entries and index sets with their expiry times. */
  datatype Db = Db(own: map<string, Owner>, lists: map<int, Listing>)

  datatype Op =
    | PutOwner(fp: string, account: int, now: int)
    | Reset(account: int, now: int)

  function OwnerAt(db: Db, fp: string, now: int): Option<int> {
    if fp in db.own && now < db.own[fp].exp then Some(db.own[fp].account) else None
  }

  function ListedAt(db: Db, account: int, now: int): set<string> {
    if account in db.lists && now < db.lists[account].exp then db.lists[account].fps else {}
  }

  /** `SET` with expiry, then `SADD` and `EXPIRE`; the reset deletes the listed
      fingerprints still owned, and the list. */
  function Apply(db: Db, ttl: int, op: Op): Db {
    match op
    case PutOwner(fp, account, now) =>
      db.(own := db.own[fp := Owner(account, now + ttl)],
          lists := db.lists[account := Listing(ListedAt(db, account, now) + {fp}, now + ttl)])
    case Reset(account, now) =>
      db.(own := map fp | fp in db.own && !(fp in ListedAt(db, account, now) && OwnerAt(db, fp, now) == Some(account)) :: db.own[fp],
          lists := db.lists - {account})
  }

  const EMPTY: Db := Db(map[], map[])

  function Run(ttl: int, ops: seq<Op>): Db {
    if ops == [] then EMPTY else Apply(Run(ttl, ops[..|ops| - 1]), ttl, ops[|ops| - 1])
  }

  /** Operations happen in time order, the last at or before `now`. */
  predicate InTime(ops: seq<Op>, now: int) {
    && (forall i, j :: 0 <= i < j < |ops| ==> ops[i].now <= ops[j].now)
    && (forall i :: 0 <= i < |ops| ==> ops[i].now <= now)
  }

  /** Every owner entry that is still alive is listed under its account, in a
      list that lives at least as long. */
  ghost predicate IndexOutlives(db: Db, now: int) {
    forall fp :: fp in db.own && now < db.own[fp].exp ==>
      var a := db.own[fp].account;
      a in db.lists && fp in db.lists[a].fps && db.lists[a].exp >= db.own[fp].exp
  }

  ghost predicate ExpiriesBounded(db: Db, limit: int) {
    forall fp :: fp in db.own ==> db.own[fp].exp <= limit
  }

  lemma {:induction false} RunKeeps(ttl: int, ops: seq<Op>, now: int)
    requires ttl > 0 && InTime(ops, now)
    ensures IndexOutlives(Run(ttl, ops), now) && ExpiriesBounded(Run(ttl, ops), now + ttl)
    decreases |ops|
  {
    if ops != [] {
      var n := |ops| - 1;
      RunKeeps(ttl, ops[..n], ops[n].now);
      StepKeeps(Run(ttl, ops[..n]), ttl, ops[n], now);
      hide Apply, IndexOutlives, ExpiriesBounded;
    }
  }

  lemma StepKeeps(db: Db, ttl: int, op: Op, now: int)
    requires ttl > 0 && op.now <= now && IndexOutlives(db, op.now) && ExpiriesBounded(db, op.now + ttl)
    ensures IndexOutlives(Apply(db, ttl, op), now) && ExpiriesBounded(Apply(db, ttl, op), now + ttl)
  {
  }

  /** Operation `i` made `account` the owner less than `ttl` before `later`; since
      then nobody else became the owner, and the account was not reset. */
  ghost predicate HeldSince(ttl: int, ops: seq<Op>, fp: string, account: int, later: int, i: int) {
    && 0 <= i < |ops| && ops[i].PutOwner? && ops[i].fp == fp && ops[i].account == account && later < ops[i].now + ttl
    && forall j :: i < j < |ops| ==>
         !(ops[j].PutOwner? && ops[j].fp == fp) && !(ops[j].Reset? && ops[j].account == account)
  }

  /** A reader finds an owner exactly that long. */
  lemma {:induction false} OwnedIff(ttl: int, ops: seq<Op>, fp: string, account: int, later: int)
    requires ttl > 0 && InTime(ops, later)
    ensures OwnerAt(Run(ttl, ops), fp, later) == Some(account)
       <==> exists i :: HeldSince(ttl, ops, fp, account, later, i)
    decreases |ops|
  {
    if ops != [] {
      var n := |ops| - 1;
      OwnedIff(ttl, ops[..n], fp, account, later);
      RunKeeps(ttl, ops[..n], ops[n].now);
      OwnedStep(Run(ttl, ops[..n]), ttl, ops[n], fp, account, later);
      HeldStep(ttl, ops, fp, account, later);
      hide Apply, OwnerAt, HeldSince, IndexOutlives, ExpiriesBounded;
    }
  }

  lemma OwnedStep(db: Db, ttl: int, op: Op, fp: string, account: int, later: int)
    requires ttl > 0 && op.now <= later && IndexOutlives(db, op.now)
    ensures OwnerAt(Apply(db, ttl, op), fp, later) == Some(account)
       <==> if op.PutOwner? && op.fp == fp then op.account == account && later < op.now + ttl
            else OwnerAt(db, fp, later) == Some(account) && op != Reset(account, op.now)
  {
  }

  lemma HeldStep(ttl: int, ops: seq<Op>, fp: string, account: int, later: int)
    requires ops != []
    ensures var n := |ops| - 1;
            var op := ops[n];
            (exists i :: HeldSince(ttl, ops, fp, account, later, i))
            <==> if op.PutOwner? && op.fp == fp then op.account == account && later < op.now + ttl
                 else (exists i :: HeldSince(ttl, ops[..n], fp, account, later, i)) && op != Reset(account, op.now)
  {
    var n := |ops| - 1;
    var op := ops[n];
    if i :| HeldSince(ttl, ops, fp, account, later, i) {
      if i < n {
        assert HeldSince(ttl, ops[..n], fp, account, later, i);
      }
    }
    if op.PutOwner? && op.fp == fp {
      assert op.account == account && later < op.now + ttl ==> HeldSince(ttl, ops, fp, account, later, n);
    } else if i :| HeldSince(ttl, ops[..n], fp, account, later, i) {
      assert forall j :: 0 <= j < n ==> ops[j] == ops[..n][j];
      assert op != Reset(account, op.now) ==> HeldSince(ttl, ops, fp, account, later, i);
    }
  }

  /** Expiry hides nothing from a reset: after any operations in time order, a
      reset leaves no entry that any later reader would take for the account's. */
  lemma ResetLeavesNone(ttl: int, ops: seq<Op>, account: int, now: int, fp: string, later: int)
    requires ttl > 0 && InTime(ops, now) && now <= later
    ensures OwnerAt(Apply(Run(ttl, ops), ttl, Reset(account, now)), fp, later) != Some(account)
  {
    RunKeeps(ttl, ops, now);
    hide Run;
  }

  /** And it takes nobody else's. */
  lemma ResetTakesOnlyItsOwn(db: Db, ttl: int, account: int, now: int, fp: string, later: int)
    requires now <= later && OwnerAt(db, fp, later) != Some(account)
    ensures OwnerAt(Apply(db, ttl, Reset(account, now)), fp, later) == OwnerAt(db, fp, later)
  {
  }
}
