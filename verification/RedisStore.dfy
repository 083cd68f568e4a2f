/** The Redis form of the conversation store: text values under prefixed keys,
    and one set per account listing the fingerprints it may own. */
module RedisStore {
  import opened Base
  import opened Decimal
  import opened ConversationStore
  import Memory = MemoryStore

  datatype Value = Text(text: string) | Members(members: set<string>)

  type Db = map<string, Value>

  // ----- Keys -----

  datatype Key =
    | Conv(account: int, fp: string)
    | Owner(fp: string)
    | OwnSet(account: int)
    | Tool(account: int, call: string)

  predicate KeyOk(k: Key) {
    k.Owner? || IsInt64(k.account)
  }

  function Tail(k: Key): string {
    match k
    case Conv(a, fp) => ":conv:" + AccountKey(a, fp)
    case Owner(fp) => ":owner:" + fp
    case OwnSet(a) => ":ownset:" + Itoa(a)
    case Tool(a, call) => ":tg:" + AccountKey(a, call)
  }

  function Spell(prefix: string, k: Key): string {
    prefix + Tail(k)
  }

  lemma DropPrefix(p: string, u: string, v: string)
    requires p + u == p + v
    ensures u == v
  {
    assert (p + u)[|p|..] == u && (p + v)[|p|..] == v;
  }

  function KindMark(k: Key): (char, char) {
    match k
    case Conv(_, _) => ('c', 'v')
    case Owner(_) => ('o', 'e')
    case OwnSet(_) => ('o', 's')
    case Tool(_, _) => ('t', ' ')
  }

  lemma TailMark(k: Key)
    ensures |Tail(k)| > 4 && Tail(k)[1] == KindMark(k).0 && (!k.Tool? ==> Tail(k)[4] == KindMark(k).1)
  {
    hide Itoa;
  }

  /** No two keys of the store are spelled alike. */
  lemma SpellInjective(prefix: string, k: Key, l: Key)
    requires KeyOk(k) && KeyOk(l) && Spell(prefix, k) == Spell(prefix, l)
    ensures k == l
  {
    DropPrefix(prefix, Tail(k), Tail(l));
    TailMark(k);
    TailMark(l);
    hide Itoa;
    match k
    case Conv(a, u) => {
      DropPrefix(":conv:", AccountKey(a, u), AccountKey(l.account, l.fp));
      AccountKeyInjective(a, u, l.account, l.fp);
    }
    case Owner(u) => DropPrefix(":owner:", u, l.fp);
    case OwnSet(a) => {
      DropPrefix(":ownset:", Itoa(a), Itoa(l.account));
      ItoaInjective(a, l.account);
    }
    case Tool(a, u) => {
      DropPrefix(":tg:", AccountKey(a, u), AccountKey(l.account, l.call));
      AccountKeyInjective(a, u, l.account, l.call);
    }
  }

  /** What `SCAN MATCH {prefix}:conv:{account}:*` matches. */
  predicate ScanMatches(prefix: string, account: int, x: string) {
    Spell(prefix, Conv(account, "")) <= x
  }

  /** The scan finds the account's conversations and no other key of the store. */
  lemma ScanFinds(prefix: string, account: int, k: Key)
    requires IsInt64(account) && KeyOk(k)
    ensures ScanMatches(prefix, account, Spell(prefix, k)) <==> k.Conv? && k.account == account
  {
    var p, x := Spell(prefix, Conv(account, "")), Spell(prefix, k);
    if k.Conv? && k.account == account {
      ConvSplits(prefix, account, k.fp);
    }
    if p <= x {
      ScanSpells(prefix, account, x);
      hide Spell, Itoa;
      SpellInjective(prefix, k, Conv(account, x[|p|..]));
    }
  }

  lemma ScanSpells(prefix: string, account: int, x: string)
    requires ScanMatches(prefix, account, x)
    ensures x == Spell(prefix, Conv(account, x[|Spell(prefix, Conv(account, ""))|..]))
  {
    ConvSplits(prefix, account, x[|Spell(prefix, Conv(account, ""))|..]);
    hide Spell;
  }

  lemma ConvSplits(prefix: string, account: int, u: string)
    ensures Spell(prefix, Conv(account, u)) == Spell(prefix, Conv(account, "")) + u
  {
    hide Itoa;
    var t := ":conv:" + (Itoa(account) + ":");
    assert Tail(Conv(account, u)) == t + u;
    assert Tail(Conv(account, "")) == t;
    assert prefix + (t + u) == prefix + t + u;
  }

  // ----- Commands and operations -----

  /** `GET`: a missing key, or one that holds no text, gives nothing. */
  function Get(db: Db, x: string): Option<string> {
    if x in db && db[x].Text? then Some(db[x].text) else None
  }

  /** `SADD`; refused on a key that holds text. */
  function SAdd(db: Db, x: string, member: string): Db {
    if x !in db then db[x := Members({member})]
    else if db[x].Members? then db[x := Members(db[x].members + {member})]
    else db
  }

  /** `SMEMBERS`; refused on a key that holds text. */
  function SMembers(db: Db, x: string): Option<set<string>> {
    if x !in db then Some({})
    else if db[x].Members? then Some(db[x].members)
    else None
  }

  /** Owner keys of listed fingerprints that still name the account. */
  predicate OwnedKey(prefix: string, db: Db, account: int, listed: set<string>, x: string) {
    (exists fp :: fp in listed && x == Spell(prefix, Owner(fp))) && Get(db, x) == Some(Itoa(account))
  }

  predicate ToolKeyOf(prefix: string, account: int, calls: seq<string>, x: string) {
    exists i :: 0 <= i < |calls| && calls[i] != "" && x == Spell(prefix, Tool(account, calls[i]))
  }

  function DropScanned(prefix: string, db: Db, account: int): Db {
    map x | x in db && !ScanMatches(prefix, account, x) :: db[x]
  }

  function DropOwned(prefix: string, db: Db, account: int): Db {
    var index := Spell(prefix, OwnSet(account));
    match SMembers(db, index)
    case None => db
    case Some(listed) => map x | x in db && x != index && !OwnedKey(prefix, db, account, listed, x) :: db[x]
  }

  function DropId(prefix: string, db: Db, account: int, id: string): Db {
    map x | x in db && !(ScanMatches(prefix, account, x) && db[x] == Text(id)) :: db[x]
  }

  function DropTools(prefix: string, db: Db, account: int, calls: seq<string>): Db {
    map x | x in db && !ToolKeyOf(prefix, account, calls, x) :: db[x]
  }

  function ApplyRedis(prefix: string, db: Db, op: Op): Db {
    match op
    case PutConversation(account, fp, id) => db[Spell(prefix, Conv(account, fp)) := Text(id)]
    case PutOwner(fp, account) =>
      SAdd(db[Spell(prefix, Owner(fp)) := Text(Itoa(account))], Spell(prefix, OwnSet(account)), fp)
    case PutToolGroup(account, call, group) => db[Spell(prefix, Tool(account, call)) := Text(group)]
    case Reset(account) => DropOwned(prefix, DropScanned(prefix, db, account), account)
    case Invalidate(account, id, calls) =>
      DropTools(prefix, if id == "" then db else DropId(prefix, db, account, id), account, calls)
  }

  function ApplyAllRedis(prefix: string, db: Db, ops: seq<Op>): Db
    decreases |ops|
  {
    if ops == [] then db else ApplyAllRedis(prefix, ApplyRedis(prefix, db, ops[0]), ops[1..])
  }

  // ----- Representation -----

  function Meant(s: Store, k: Key): Option<Value>
    requires !k.OwnSet?
  {
    match k
    case Conv(a, fp) => if (a, fp) in s.conv then Some(Text(s.conv[(a, fp)])) else None
    case Owner(fp) => if fp in s.own then Some(Text(Itoa(s.own[fp]))) else None
    case Tool(a, call) => if (a, call) in s.tools then Some(Text(s.tools[(a, call)])) else None
  }

  ghost predicate Texts(prefix: string, db: Db, s: Store) {
    && (forall fp :: fp in s.own ==> IsInt64(s.own[fp]))
    && (forall k :: KeyOk(k) && !k.OwnSet? ==> Find(db, Spell(prefix, k)) == Meant(s, k))
  }

  /** The reverse index: every owned fingerprint is listed under its account.
      Lists may also hold fingerprints that moved on or are gone. */
  ghost predicate Index(prefix: string, db: Db, s: Store) {
    && (forall a :: IsInt64(a) ==> Listed(prefix, db, a).Some?)
    && (forall fp :: fp in s.own ==> IsInt64(s.own[fp]) && fp in Listed(prefix, db, s.own[fp]).value)
  }

  ghost predicate RedisRep(prefix: string, db: Db, s: Store) {
    Texts(prefix, db, s) && Index(prefix, db, s)
  }

  function Listed(prefix: string, db: Db, a: int): Option<set<string>> {
    SMembers(db, Spell(prefix, OwnSet(a)))
  }

  /** What an operation does to an account's list. */
  function ListedAfter(listed: Option<set<string>>, op: Op, a: int): Option<set<string>> {
    if listed.None? || op.account != a then listed
    else if op.PutOwner? then Some(listed.value + {op.fp})
    else if op.Reset? then Some({})
    else listed
  }

  lemma ListsStep(prefix: string, db: Db, op: Op, a: int)
    requires OpOk(op) && IsInt64(a)
    ensures Listed(prefix, ApplyRedis(prefix, db, op), a) == ListedAfter(Listed(prefix, db, a), op, a)
  {
    var k := OwnSet(a);
    match op
    case PutConversation(b, fp, id) => Apart(prefix, k, Conv(b, fp));
    case PutToolGroup(b, call, group) => Apart(prefix, k, Tool(b, call));
    case PutOwner(fp, b) => {
      Apart(prefix, k, Owner(fp));
      Apart(prefix, k, OwnSet(b));
      Apart(prefix, OwnSet(b), Owner(fp));
      hide Spell, Itoa;
      assert {} + {fp} == {fp};
    }
    case Reset(b) => {
      ScanFinds(prefix, b, k);
      ScanFinds(prefix, b, OwnSet(b));
      Apart(prefix, k, OwnSet(b));
      NotOwned(prefix, DropScanned(prefix, db, b), b, k);
      hide Spell, ScanMatches, OwnedKey, Itoa;
    }
    case Invalidate(b, id, calls) => {
      ScanFinds(prefix, b, k);
      ToolKeyIff(prefix, b, calls, k);
      hide Spell, ScanMatches, ToolKeyOf;
    }
  }

  lemma Apart(prefix: string, k: Key, l: Key)
    requires KeyOk(k) && KeyOk(l)
    ensures Spell(prefix, k) == Spell(prefix, l) <==> k == l
  {
    hide Spell;
    if Spell(prefix, k) == Spell(prefix, l) {
      SpellInjective(prefix, k, l);
    }
  }

  lemma NotOwned(prefix: string, db: Db, account: int, k: Key)
    requires KeyOk(k) && !k.Owner?
    ensures forall listed :: !OwnedKey(prefix, db, account, listed, Spell(prefix, k))
  {
    hide Spell;
    forall fp ensures Spell(prefix, k) != Spell(prefix, Owner(fp)) {
      Apart(prefix, k, Owner(fp));
    }
  }

  lemma ToolKeyIff(prefix: string, account: int, calls: seq<string>, k: Key)
    requires IsInt64(account) && KeyOk(k)
    ensures ToolKeyOf(prefix, account, calls, Spell(prefix, k)) <==> k.Tool? && k.account == account && k.call in calls && k.call != ""
  {
    hide Spell;
    forall i | 0 <= i < |calls|
      ensures Spell(prefix, k) == Spell(prefix, Tool(account, calls[i])) <==> k == Tool(account, calls[i])
    {
      Apart(prefix, k, Tool(account, calls[i]));
    }
  }

  /** Among the owner keys, exactly those naming the account go: the index
      lists them all. */
  lemma OwnedIff(prefix: string, db: Db, s: Store, account: int, fp: string)
    requires RedisRep(prefix, db, s) && IsInt64(account)
    ensures OwnedKey(prefix, db, account, Listed(prefix, db, account).value, Spell(prefix, Owner(fp)))
       <==> fp in s.own && s.own[fp] == account
  {
    var k := Owner(fp);
    assert Find(db, Spell(prefix, k)) == Meant(s, k);
    if fp in s.own && s.own[fp] != account && Itoa(s.own[fp]) == Itoa(account) {
      ItoaInjective(s.own[fp], account);
    }
    hide Spell, Itoa;
    forall other ensures Spell(prefix, Owner(fp)) == Spell(prefix, Owner(other)) <==> fp == other {
      Apart(prefix, Owner(fp), Owner(other));
    }
  }

  lemma TextPut(prefix: string, db: Db, s: Store, op: Op, k: Key)
    requires OpOk(op) && KeyOk(k) && !k.OwnSet? && !op.Reset? && !op.Invalidate?
    requires Find(db, Spell(prefix, k)) == Meant(s, k)
    ensures Find(ApplyRedis(prefix, db, op), Spell(prefix, k)) == Meant(Apply(s, op), k)
  {
    match op
    case PutConversation(b, fp, id) => Apart(prefix, k, Conv(b, fp));
    case PutToolGroup(b, call, group) => Apart(prefix, k, Tool(b, call));
    case PutOwner(fp, b) => {
      Apart(prefix, k, Owner(fp));
      Apart(prefix, k, OwnSet(b));
      hide Spell, Itoa;
    }
  }

  lemma TextReset(prefix: string, db: Db, s: Store, op: Op, k: Key)
    requires OpOk(op) && KeyOk(k) && !k.OwnSet? && op.Reset?
    requires RedisRep(prefix, db, s)
    ensures Find(ApplyRedis(prefix, db, op), Spell(prefix, k)) == Meant(Apply(s, op), k)
  {
    assert Find(db, Spell(prefix, k)) == Meant(s, k);
    var account := op.account;
    var db1 := DropScanned(prefix, db, account);
    ScanFinds(prefix, account, k);
    ScanFinds(prefix, account, OwnSet(account));
    Apart(prefix, k, OwnSet(account));
    if k.Owner? {
      OwnedIff(prefix, db, s, account, k.fp);
    } else {
      NotOwned(prefix, db1, account, k);
    }
    hide RedisRep, Spell, ScanMatches, Itoa;
    assert Listed(prefix, db1, account) == Listed(prefix, db, account);
    assert Get(db1, Spell(prefix, k)) == if k.Conv? && k.account == account then None else Get(db, Spell(prefix, k));
  }

  lemma TextInvalidate(prefix: string, db: Db, s: Store, op: Op, k: Key)
    requires OpOk(op) && KeyOk(k) && !k.OwnSet? && op.Invalidate?
    requires Find(db, Spell(prefix, k)) == Meant(s, k)
    ensures Find(ApplyRedis(prefix, db, op), Spell(prefix, k)) == Meant(Apply(s, op), k)
  {
    ScanFinds(prefix, op.account, k);
    ToolKeyIff(prefix, op.account, op.calls, k);
    hide Spell, ScanMatches, ToolKeyOf, Itoa;
  }

  /** Each operation does to the database what it means. */
  lemma RedisStep(prefix: string, db: Db, s: Store, op: Op)
    requires RedisRep(prefix, db, s) && OpOk(op)
    ensures RedisRep(prefix, ApplyRedis(prefix, db, op), Apply(s, op))
  {
    TextsStep(prefix, db, s, op);
    IndexStep(prefix, db, s, op);
  }

  lemma TextsStep(prefix: string, db: Db, s: Store, op: Op)
    requires RedisRep(prefix, db, s) && OpOk(op)
    ensures Texts(prefix, ApplyRedis(prefix, db, op), Apply(s, op))
  {
    forall k | KeyOk(k) && !k.OwnSet?
      ensures Find(ApplyRedis(prefix, db, op), Spell(prefix, k)) == Meant(Apply(s, op), k)
    {
      hide ApplyRedis, Spell, Meant;
      match op
      case Reset(_) => TextReset(prefix, db, s, op, k);
      case Invalidate(_, _, _) => TextInvalidate(prefix, db, s, op, k);
      case _ => TextPut(prefix, db, s, op, k);
    }
    hide ApplyRedis, Spell, Meant;
  }

  lemma OwnerAfter(s: Store, op: Op, fp: string)
    requires fp in Apply(s, op).own
    ensures var a := Apply(s, op).own[fp];
            if op.PutOwner? && op.fp == fp then a == op.account
            else fp in s.own && s.own[fp] == a && !(op.Reset? && op.account == a)
  {
  }

  lemma IndexStep(prefix: string, db: Db, s: Store, op: Op)
    requires RedisRep(prefix, db, s) && OpOk(op)
    ensures Index(prefix, ApplyRedis(prefix, db, op), Apply(s, op))
  {
    hide Apply, ApplyRedis, Listed, Texts;
    var db', s' := ApplyRedis(prefix, db, op), Apply(s, op);
    forall a | IsInt64(a) ensures Listed(prefix, db', a).Some? {
      ListsStep(prefix, db, op, a);
    }
    forall fp | fp in s'.own
      ensures IsInt64(s'.own[fp]) && fp in Listed(prefix, db', s'.own[fp]).value
    {
      OwnerAfter(s, op, fp);
      ListsStep(prefix, db, op, s'.own[fp]);
    }
  }

  lemma {:induction false} RedisRun(prefix: string, db: Db, s: Store, ops: seq<Op>)
    requires RedisRep(prefix, db, s) && forall i :: 0 <= i < |ops| ==> OpOk(ops[i])
    ensures RedisRep(prefix, ApplyAllRedis(prefix, db, ops), ApplyAll(s, ops))
    decreases |ops|
  {
    hide RedisRep, ApplyRedis, Apply;
    if ops != [] {
      RedisStep(prefix, db, s, ops[0]);
      RedisRun(prefix, ApplyRedis(prefix, db, ops[0]), Apply(s, ops[0]), ops[1..]);
    }
  }

  // ----- Against the in-memory store -----

  function Conversation(prefix: string, db: Db, account: int, fp: string): Option<string> {
    Get(db, Spell(prefix, Conv(account, fp)))
  }

  /** `GetOwner`: an owner that does not read as a 64-bit number is none. */
  function OwnerOf(prefix: string, db: Db, fp: string): Option<int> {
    match Get(db, Spell(prefix, Owner(fp)))
    case None => None
    case Some(text) => Atoi(text)
  }

  function ToolGroup(prefix: string, db: Db, account: int, call: string): Option<string> {
    Get(db, Spell(prefix, Tool(account, call)))
  }

  lemma RedisAnswers(prefix: string, db: Db, s: Store, account: int, fp: string)
    requires RedisRep(prefix, db, s) && IsInt64(account)
    ensures Conversation(prefix, db, account, fp) == Find(s.conv, (account, fp))
    ensures OwnerOf(prefix, db, fp) == Find(s.own, fp)
    ensures ToolGroup(prefix, db, account, fp) == Find(s.tools, (account, fp))
  {
    assert Find(db, Spell(prefix, Conv(account, fp))) == Meant(s, Conv(account, fp));
    assert Find(db, Spell(prefix, Owner(fp))) == Meant(s, Owner(fp));
    assert Find(db, Spell(prefix, Tool(account, fp))) == Meant(s, Tool(account, fp));
    if fp in s.own {
      AtoiItoa(s.own[fp]);
    }
    hide Spell, Itoa, Atoi;
  }

  /** A database with none of the store's keys is an empty store. */
  lemma FreshDatabase(prefix: string, db: Db)
    requires forall k :: KeyOk(k) ==> Spell(prefix, k) !in db
    ensures RedisRep(prefix, db, EMPTY)
  {
    hide Spell;
    forall a | IsInt64(a) ensures Listed(prefix, db, a).Some? {
      assert KeyOk(OwnSet(a));
    }
  }

  /** After any sequence of operations both forms of the store give the same
      answers, whatever else the database holds. */
  lemma StoresAgree(prefix: string, db: Db, ops: seq<Op>, account: int, x: string)
    requires forall k :: KeyOk(k) ==> Spell(prefix, k) !in db
    requires (forall i :: 0 <= i < |ops| ==> OpOk(ops[i])) && IsInt64(account)
    ensures var d, m := ApplyAllRedis(prefix, db, ops), Memory.ApplyAllMem(Memory.Mem(map[], map[], map[]), ops);
            && Conversation(prefix, d, account, x) == Find(m.conv, AccountKey(account, x))
            && OwnerOf(prefix, d, x) == Find(m.own, x)
            && ToolGroup(prefix, d, account, x) == Find(m.tools, AccountKey(account, x))
  {
    hide Spell, AccountKey;
    FreshDatabase(prefix, db);
    RedisRun(prefix, db, EMPTY, ops);
    Memory.MemRun(Memory.Mem(map[], map[], map[]), EMPTY, ops);
    RedisAnswers(prefix, ApplyAllRedis(prefix, db, ops), ApplyAll(EMPTY, ops), account, x);
  }

  /** Keys that are not the store's keep their values. */
  lemma ForeignKeysUntouched(prefix: string, db: Db, op: Op, x: string)
    requires OpOk(op) && forall k :: KeyOk(k) ==> x != Spell(prefix, k)
    ensures Find(ApplyRedis(prefix, db, op), x) == Find(db, x)
  {
    var account := op.account;
    if ScanMatches(prefix, account, x) {
      ScanSpells(prefix, account, x);
    }
    assert KeyOk(OwnSet(account)) && forall a: string :: KeyOk(Conv(account, a)) && KeyOk(Owner(a)) && KeyOk(Tool(account, a));
    hide Spell, ScanMatches, Itoa;
  }

  // ----- The store object -----

  /** What a full `SCAN` promises: every matching key is in some batch, and
      nothing else is. Keys may come in any order and more than once. */
  ghost predicate FullScan(prefix: string, db: Db, account: int, batches: seq<seq<string>>) {
    && (forall x :: x in db && ScanMatches(prefix, account, x) ==> x in Flat(batches))
    && (forall x :: x in Flat(batches) ==> ScanMatches(prefix, account, x))
  }

  ghost function Flat(batches: seq<seq<string>>): seq<string> {
    if batches == [] then [] else Flat(batches[..|batches| - 1]) + batches[|batches| - 1]
  }

  class RedisStore {
    const prefix: string
    var db: Db

    constructor (prefix: string, db: Db)
      ensures this.prefix == (if prefix == "" then "ps2api" else prefix) && this.db == db
    {
      this.prefix := if prefix == "" then "ps2api" else prefix;
      this.db := db;
    }

    method GetConversation(account: int, fp: string) returns (id: Option<string>)
      ensures forall s :: RedisRep(prefix, db, s) && IsInt64(account) ==> id == Find(s.conv, (account, fp))
    {
      hide RedisRep, Spell, Base.Find;
      id := Get(db, Spell(prefix, Conv(account, fp)));
      forall s | RedisRep(prefix, db, s) && IsInt64(account) ensures id == Find(s.conv, (account, fp)) {
        RedisAnswers(prefix, db, s, account, fp);
      }
    }

    method PutConversation(account: int, fp: string, id: string)
      modifies this
      ensures db == ApplyRedis(prefix, old(db), Op.PutConversation(account, fp, id))
    {
      db := db[Spell(prefix, Conv(account, fp)) := Text(id)];
    }

    method GetOwner(fp: string) returns (owner: Option<int>)
      ensures forall s :: RedisRep(prefix, db, s) ==> owner == Find(s.own, fp)
    {
      hide RedisRep, Spell, Decimal.Atoi, Base.Find;
      var v := Get(db, Spell(prefix, Owner(fp)));
      owner := if v.None? then None else Atoi(v.value);
      forall s | RedisRep(prefix, db, s) ensures owner == Find(s.own, fp) {
        RedisAnswers(prefix, db, s, 0, fp);
      }
    }

    method PutOwner(fp: string, account: int)
      modifies this
      ensures db == ApplyRedis(prefix, old(db), Op.PutOwner(fp, account))
    {
      db := db[Spell(prefix, Owner(fp)) := Text(Itoa(account))];
      db := SAdd(db, Spell(prefix, OwnSet(account)), fp);
    }

    method GetToolGroup(account: int, call: string) returns (group: Option<string>)
      ensures forall s :: RedisRep(prefix, db, s) && IsInt64(account) ==> group == Find(s.tools, (account, call))
    {
      hide RedisRep, Spell, Base.Find;
      group := Get(db, Spell(prefix, Tool(account, call)));
      forall s | RedisRep(prefix, db, s) && IsInt64(account) ensures group == Find(s.tools, (account, call)) {
        RedisAnswers(prefix, db, s, account, call);
      }
    }

    method PutToolGroup(account: int, call: string, group: string)
      modifies this
      ensures db == ApplyRedis(prefix, old(db), Op.PutToolGroup(account, call, group))
    {
      db := db[Spell(prefix, Tool(account, call)) := Text(group)];
    }

    method Reset(account: int, batches: seq<seq<string>>)
      requires FullScan(prefix, db, account, batches)
      modifies this
      ensures db == ApplyRedis(prefix, old(db), Op.Reset(account))
    {
      hide Spell, Itoa;
      ScanDelete(account, batches);
      assert db == DropScanned(prefix, old(db), account);
      var setK := Spell(prefix, OwnSet(account));
      var fps := SMembers(db, setK);
      if fps.None? {
        return;
      }
      var want := Itoa(account);
      var gone: set<string> := {};
      var rest := fps.value;
      while rest != {}
        invariant rest <= fps.value
        invariant forall x :: x in gone <==> OwnedKey(prefix, db, account, fps.value - rest, x)
        decreases |rest|
      {
        var fp :| fp in rest;
        var k := Spell(prefix, Owner(fp));
        var v := Get(db, k);
        if v == Some(want) {
          gone := gone + {k};
        }
        rest := rest - {fp};
      }
      assert fps.value - rest == fps.value;
      db := map x | x in db && x !in gone + {setK} :: db[x];
    }

    /** `scanDelete`: each batch is deleted before the next is fetched. */
    method ScanDelete(account: int, batches: seq<seq<string>>)
      requires FullScan(prefix, db, account, batches)
      modifies this`db
      ensures db == DropScanned(prefix, old(db), account)
    {
      hide ScanMatches;
      for n := 0 to |batches|
        invariant db == map x | x in old(db) && x !in Flat(batches[..n]) :: old(db)[x]
      {
        db := map x | x in db && x !in batches[n] :: db[x];
        assert batches[..n + 1][..n] == batches[..n];
      }
      assert batches[..|batches|] == batches;
    }

    method InvalidateConversation(account: int, id: string, calls: seq<string>, batches: seq<seq<string>>)
      requires id != "" ==> FullScan(prefix, db, account, batches)
      modifies this
      ensures db == ApplyRedis(prefix, old(db), Op.Invalidate(account, id, calls))
    {
      if id != "" {
        ScanInvalidate(account, id, batches);
      }
      DeleteTools(account, calls);
    }

    method DeleteTools(account: int, calls: seq<string>)
      modifies this`db
      ensures db == DropTools(prefix, old(db), account, calls)
    {
      var gone: set<string> := {};
      for n := 0 to |calls|
        invariant db == old(db) && forall x :: x in gone <==> ToolKeyOf(prefix, account, calls[..n], x)
      {
        hide Spell, ToolKeyOf;
        if calls[n] != "" {
          gone := gone + {Spell(prefix, Tool(account, calls[n]))};
        }
        OneMoreCall(prefix, account, calls, n);
      }
      assert calls[..|calls|] == calls;
      hide Spell, ToolKeyOf;
      if gone != {} {
        db := map x | x in db && x !in gone :: db[x];
      }
    }

    method ScanInvalidate(account: int, id: string, batches: seq<seq<string>>)
      requires FullScan(prefix, db, account, batches)
      modifies this`db
      ensures db == DropId(prefix, old(db), account, id)
    {
      hide ScanMatches;
      for n := 0 to |batches|
        invariant db == map x | x in old(db) && !(x in Flat(batches[..n]) && old(db)[x] == Text(id)) :: old(db)[x]
      {
        var keys := batches[n];
        for i := 0 to |keys|
          invariant db == map x | x in old(db) && !((x in Flat(batches[..n]) || x in keys[..i]) && old(db)[x] == Text(id)) :: old(db)[x]
        {
          hide Flat;
          var v := Get(db, keys[i]);
          if v == Some(id) {
            db := db - {keys[i]};
          }
        }
        assert keys[..|keys|] == keys && batches[..n + 1][..n] == batches[..n];
      }
      assert batches[..|batches|] == batches;
    }
  }

  lemma OneMoreCall(prefix: string, account: int, calls: seq<string>, n: nat)
    requires n < |calls|
    ensures forall x :: (ToolKeyOf(prefix, account, calls[..n + 1], x)
              <==> ToolKeyOf(prefix, account, calls[..n], x) || (calls[n] != "" && x == Spell(prefix, Tool(account, calls[n]))))
  {
    hide Spell;
    forall x
      ensures (ToolKeyOf(prefix, account, calls[..n + 1], x)
               <==> ToolKeyOf(prefix, account, calls[..n], x) || (calls[n] != "" && x == Spell(prefix, Tool(account, calls[n]))))
    {
      assert calls[..n + 1][n] == calls[n];
      assert forall i :: 0 <= i < n ==> calls[..n][i] == calls[..n + 1][i];
    }
  }
}
