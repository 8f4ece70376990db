/** The cache of token keys in front of the account tables (src/auth/AuthService.ts), without the admin registry. */
module TokenCache {
  import opened Strings

  const MAX_SIZE: nat := 5000
  const TTL_MS: int := 30000

  /** A JavaScript Map in its iteration order: the least recently inserted entry comes first. */
  datatype Entry = Entry(key: string, tokenKey: string, expiresAt: int)
  type Cache = seq<Entry>

  datatype Account = Account(collection: string, id: string, email: string, tokenKey: string)

  predicate DistinctKeys(c: Cache) {
    forall i, j :: 0 <= i < j < |c| ==> c[i].key != c[j].key
  }

  // ---------------------------------------------------------------- the map

  function Remove(c: Cache, key: string): (r: Cache)
    ensures |r| <= |c|
  {
    if c == [] then [] else if c[0].key == key then Remove(c[1..], key) else [c[0]] + Remove(c[1..], key)
  }

  function RemovePrefix(c: Cache, prefix: string): (r: Cache)
    ensures |r| <= |c|
  {
    if c == [] then []
    else (if StartsWith(c[0].key, prefix) then [] else [c[0]]) + RemovePrefix(c[1..], prefix)
  }

  function Find(c: Cache, key: string): (r: Option<Entry>)
    ensures r.Some? ==> r.value in c && r.value.key == key
    ensures r.None? ==> forall e :: e in c ==> e.key != key
  {
    if c == [] then None else if c[0].key == key then Some(c[0]) else Find(c[1..], key)
  }

  lemma {:induction false} RemoveIff(c: Cache, key: string, e: Entry)
    ensures e in Remove(c, key) <==> e in c && e.key != key
  {
    if c != [] {
      RemoveIff(c[1..], key, e);
      assert e in c <==> e == c[0] || e in c[1..];
    }
  }

  lemma {:induction false} RemovePrefixIff(c: Cache, prefix: string, e: Entry)
    ensures e in RemovePrefix(c, prefix) <==> e in c && !StartsWith(e.key, prefix)
  {
    if c != [] {
      RemovePrefixIff(c[1..], prefix, e);
      assert e in c <==> e == c[0] || e in c[1..];
    }
  }

  // ---------------------------------------------------------------- the cache's operations

  /** getCachedTokenKey: the cache afterwards, and the key if there is one that has not expired. */
  function Get(c: Cache, key: string, now: int): (Cache, Option<string>) {
    var found := Find(c, key);
    if found.None? then (c, None)
    else if now > found.value.expiresAt then (Remove(c, key), None)
    else (Remove(c, key) + [found.value], Some(found.value.tokenKey))
  }

  /** setCachedTokenKey */
  function Put(c: Cache, key: string, tokenKey: string, now: int): Cache {
    var without := Remove(c, key);
    var room := if |without| >= MAX_SIZE && without[0].key != "" then Remove(without, without[0].key) else without;
    room + [Entry(key, tokenKey, now + TTL_MS)]
  }

  function CacheKey(collection: string, id: string): string {
    collection + ":" + id
  }

  function FirstColon(s: string): nat {
    if s == "" || s[0] == ':' then 0 else 1 + FirstColon(s[1..])
  }

  lemma {:induction false} ColonAfter(c: string, rest: string)
    requires ':' !in c
    ensures FirstColon(c + ":" + rest) == |c|
  {
    if c == "" {
      assert c + ":" + rest == ":" + rest;
    } else {
      assert (c + ":" + rest)[1..] == c[1..] + ":" + rest && c[0] in c;
      ColonAfter(c[1..], rest);
    }
  }

  /** Collection names have no colon, so a cache key names one account. */
  lemma KeysAreInjective(c: string, i: string, d: string, j: string)
    requires ':' !in c && ':' !in d && CacheKey(c, i) == CacheKey(d, j)
    ensures c == d && i == j
  {
    ColonAfter(c, i);
    ColonAfter(d, j);
    var k := CacheKey(c, i);
    assert c == k[..|c|] && d == k[..|d|] && i == k[|c| + 1..] && j == k[|d| + 1..];
  }

  // ---------------------------------------------------------------- the tables

  predicate IsRow(a: Account, collection: string, id: string) {
    a.collection == collection && a.id == id
  }

  function Row(accounts: seq<Account>, collection: string, id: string): (r: Option<Account>)
    ensures r.Some? ==> r.value in accounts && IsRow(r.value, collection, id)
    ensures r.None? ==> forall a :: a in accounts ==> !IsRow(a, collection, id)
  {
    if accounts == [] then None
    else if IsRow(accounts[0], collection, id) then Some(accounts[0])
    else Row(accounts[1..], collection, id)
  }

  /** What the token check would say if it read the stored key every time. */
  predicate StorageAccepts(accounts: seq<Account>, collection: string, id: string, tokenKey: string) {
    var row := Row(accounts, collection, id);
    row.Some? && row.value.tokenKey != "" && row.value.tokenKey == tokenKey
  }

  /** `WHERE id = ? OR email = ?` and `WHERE email = ?`, within a collection. */
  datatype Where = IdOrEmail(collection: string, id: string, email: string) | Email(collection: string, email: string)

  predicate Hits(w: Where, a: Account) {
    a.collection == w.collection && (a.email == w.email || (w.IdOrEmail? && a.id == w.id))
  }

  function FirstHit(accounts: seq<Account>, w: Where): (r: Option<Account>)
    ensures r.Some? ==> r.value in accounts && Hits(w, r.value)
    ensures r.None? ==> forall a :: a in accounts ==> !Hits(w, a)
  {
    if accounts == [] then None
    else if Hits(w, accounts[0]) then Some(accounts[0])
    else FirstHit(accounts[1..], w)
  }

  function SetKeys(accounts: seq<Account>, w: Where, tokenKey: string): seq<Account> {
    seq(|accounts|, i requires 0 <= i < |accounts| =>
      if Hits(w, accounts[i]) then accounts[i].(tokenKey := tokenKey) else accounts[i])
  }

  /** A record's own update, by its id. */
  function SetRow(accounts: seq<Account>, a: Account): seq<Account> {
    seq(|accounts|, i requires 0 <= i < |accounts| => if IsRow(accounts[i], a.collection, a.id) then a else accounts[i])
  }

  function DeleteRow(accounts: seq<Account>, collection: string, id: string): seq<Account> {
    if accounts == [] then []
    else (if IsRow(accounts[0], collection, id) then [] else [accounts[0]]) + DeleteRow(accounts[1..], collection, id)
  }

  // ---------------------------------------------------------------- the service

  const ADMINS := "_admins"

  /** A change of an admin's password that waits for the hash: the e-mail it was asked for and the id found for it. */
  datatype Change = Change(email: string, id: string)

  datatype Auth = Auth(accounts: seq<Account>, cache: Cache, changes: multiset<Change>)

  /** verifyToken for a decoded token of an auth collection or of `_admins`. */
  function VerifyToken(s: Auth, collection: string, id: string, tokenKey: string, now: int): (Auth, bool) {
    var key := CacheKey(collection, id);
    var (cache, cached) := Get(s.cache, key, now);
    if cached.Some? then (s.(cache := cache), cached.value == tokenKey)
    else
      var row := Row(s.accounts, collection, id);
      if row.None? || row.value.tokenKey == "" || row.value.tokenKey != tokenKey then (s.(cache := cache), false)
      else (s.(cache := Put(cache, key, row.value.tokenKey, now)), true)
  }

  /** invalidateTokenCache with a collection, and an id unless it is empty. */
  function Invalidate(c: Cache, collection: string, id: string): Cache {
    if id != "" then Remove(c, CacheKey(collection, id)) else RemovePrefix(c, collection + ":")
  }

  /** New keys for the accounts that are hit, and one account's entry dropped. */
  function Rekey(s: Auth, w: Where, id: string, newKey: string): Auth {
    s.(accounts := SetKeys(s.accounts, w, newKey), cache := Invalidate(s.cache, w.collection, id))
  }

  /** revokeRecordSessions and revokeAdminSessions; `w.email` is the argument trimmed and lower-cased. */
  function RevokeSessions(s: Auth, w: Where, newKey: string): Auth {
    var existing := FirstHit(s.accounts, w);
    if existing.None? then s else Rekey(s, w, existing.value.id, newKey)
  }

  /** updateAdminPassword up to its await: the admin is looked up by e-mail and the new password is checked. */
  function BeginPasswordChange(s: Auth, email: string, longEnough: bool): Auth {
    var admin := FirstHit(s.accounts, Email(ADMINS, email));
    if admin.None? || !longEnough then s else s.(changes := s.changes + multiset{Change(email, admin.value.id)})
  }

  /** And from there: whoever has the e-mail by now gets the new key, and the id found before loses its entry. */
  function FinishPasswordChange(s: Auth, c: Change, newKey: string): Auth {
    if s.changes[c] == 0 then s
    else Rekey(s.(changes := s.changes - multiset{c}), Email(ADMINS, c.email), c.id, newKey)
  }

  /** createAdmin, and a record created in an auth collection: ids and e-mail addresses are unique. */
  function CreateAccount(s: Auth, a: Account): Auth {
    if FirstHit(s.accounts, IdOrEmail(a.collection, a.id, a.email)).Some? then s else s.(accounts := s.accounts + [a])
  }

  /** A record updated through the record service, whose event invalidates its entry. */
  function UpdateAccount(s: Auth, a: Account): Auth {
    var holder := FirstHit(s.accounts, Email(a.collection, a.email));
    if holder.Some? && holder.value.id != a.id then s
    else s.(accounts := SetRow(s.accounts, a), cache := Remove(s.cache, CacheKey(a.collection, a.id)))
  }

  /** A record deleted through the record service, whose event invalidates its entry. */
  function DeleteAccount(s: Auth, collection: string, id: string): Auth {
    s.(accounts := DeleteRow(s.accounts, collection, id), cache := Remove(s.cache, CacheKey(collection, id)))
  }

  datatype Action =
    | Verify(collection: string, id: string, tokenKey: string, now: int)
    | Revoke(w: Where, newKey: string)
    | BeginPassword(email: string, longEnough: bool)
    | FinishPassword(change: Change, newKey: string)
    | Create(account: Account)
    | Update(account: Account)
    | Delete(collection: string, id: string)
    | Forget

  function Next(s: Auth, a: Action): Auth {
    match a
    case Verify(collection, id, tokenKey, now) => VerifyToken(s, collection, id, tokenKey, now).0
    case Revoke(w, newKey) => RevokeSessions(s, w, newKey)
    case BeginPassword(email, longEnough) => BeginPasswordChange(s, email, longEnough)
    case FinishPassword(change, newKey) => FinishPasswordChange(s, change, newKey)
    case Create(account) => CreateAccount(s, account)
    case Update(account) => UpdateAccount(s, account)
    case Delete(collection, id) => DeleteAccount(s, collection, id)
    case Forget => s.(cache := [])
  }

  function Perform(s: Auth, actions: seq<Action>): Auth
    decreases |actions|
  {
    if actions == [] then s else Perform(Next(s, actions[0]), actions[1..])
  }

  // ---------------------------------------------------------------- the invariant

  /** An entry holds the key that is stored for its account. */
  predicate Agrees(accounts: seq<Account>, e: Entry) {
    exists a :: a in accounts && ':' !in a.collection && CacheKey(a.collection, a.id) == e.key
      && a.tokenKey == e.tokenKey && e.tokenKey != ""
  }

  predicate CacheAgrees(s: Auth) {
    forall e :: e in s.cache ==> Agrees(s.accounts, e)
  }

  predicate DistinctRows(accounts: seq<Account>) {
    forall i, j :: 0 <= i < j < |accounts| ==> !IsRow(accounts[j], accounts[i].collection, accounts[i].id)
  }

  predicate Named(accounts: seq<Account>) {
    forall a :: a in accounts ==> ':' !in a.collection && a.id != ""
  }

  /** The e-mail columns are unique. */
  predicate DistinctEmails(accounts: seq<Account>) {
    forall a, b :: a in accounts && b in accounts && a.collection == b.collection && a.email == b.email ==> a.id == b.id
  }

  /** The admin found for a password change still has the e-mail address. */
  predicate StillHolds(accounts: seq<Account>, c: Change) {
    exists a :: a in accounts && a.collection == ADMINS && a.id == c.id && a.email == c.email
  }

  /** What the cache keeps whatever is stored in it: one entry a key, no empty key, and no more than its size. */
  predicate Shaped(c: Cache) {
    DistinctKeys(c) && |c| <= MAX_SIZE && forall e :: e in c ==> e.key != ""
  }

  predicate Inv(s: Auth) {
    && Shaped(s.cache) && CacheAgrees(s)
    && DistinctRows(s.accounts) && Named(s.accounts) && DistinctEmails(s.accounts)
    && forall c :: c in s.changes ==> StillHolds(s.accounts, c)
  }

  lemma {:induction false} RemoveKeepsDistinct(c: Cache, key: string)
    requires DistinctKeys(c)
    ensures DistinctKeys(Remove(c, key)) && forall e :: e in Remove(c, key) ==> e in c && e.key != key
    ensures (exists e :: e in c && e.key == key) ==> |Remove(c, key)| < |c|
  {
    if c != [] {
      RemoveKeepsDistinct(c[1..], key);
      assert forall e :: e in c <==> e == c[0] || e in c[1..];
    }
  }

  /** An account's row is the only one with its collection and id. */
  lemma {:induction false} RowIsUnique(accounts: seq<Account>, a: Account)
    requires DistinctRows(accounts) && a in accounts
    ensures Row(accounts, a.collection, a.id) == Some(a)
  {
    var found := Row(accounts, a.collection, a.id).value;
    var i :| 0 <= i < |accounts| && accounts[i] == a;
    var j :| 0 <= j < |accounts| && accounts[j] == found;
    assert i == j;
  }

  lemma MoveToEndKeeps(c: Cache, e: Entry)
    requires DistinctKeys(c)
    ensures DistinctKeys(Remove(c, e.key) + [e])
  {
    RemoveKeepsDistinct(c, e.key);
  }

  lemma GetShaped(c: Cache, key: string, now: int)
    requires Shaped(c)
    ensures Shaped(Get(c, key, now).0)
  {
    RemoveKeepsDistinct(c, key);
    if Find(c, key).Some? {
      MoveToEndKeeps(c, Find(c, key).value);
    }
  }

  lemma PutShaped(c: Cache, key: string, tokenKey: string, now: int)
    requires Shaped(c) && key != ""
    ensures Shaped(Put(c, key, tokenKey, now))
  {
    var without := Remove(c, key);
    RemoveKeepsDistinct(c, key);
    if |without| >= MAX_SIZE {
      assert without[0] in c;
      RemoveKeepsDistinct(without, without[0].key);
    }
  }

  lemma GetKeeps(s: Auth, key: string, now: int)
    requires Inv(s)
    ensures Inv(s.(cache := Get(s.cache, key, now).0))
  {
    GetShaped(s.cache, key, now);
    RemoveKeepsDistinct(s.cache, key);
  }

  lemma PutKeeps(s: Auth, a: Account, now: int)
    requires Inv(s) && a in s.accounts && a.tokenKey != ""
    ensures Inv(s.(cache := Put(s.cache, CacheKey(a.collection, a.id), a.tokenKey, now)))
  {
    var key := CacheKey(a.collection, a.id);
    var without := Remove(s.cache, key);
    PutShaped(s.cache, key, a.tokenKey, now);
    RemoveKeepsDistinct(s.cache, key);
    if |without| >= MAX_SIZE {
      RemoveKeepsDistinct(without, without[0].key);
    }
    assert Agrees(s.accounts, Entry(key, a.tokenKey, now + TTL_MS));
  }

  /** With the cache in agreement the token check decides as if it read the stored key, and stays in agreement. */
  lemma VerifyDecidesAsStorage(s: Auth, collection: string, id: string, tokenKey: string, now: int)
    requires Inv(s) && ':' !in collection
    ensures VerifyToken(s, collection, id, tokenKey, now).1 <==> StorageAccepts(s.accounts, collection, id, tokenKey)
    ensures Inv(VerifyToken(s, collection, id, tokenKey, now).0)
  {
    var key := CacheKey(collection, id);
    GetKeeps(s, key, now);
    var (cache, cached) := Get(s.cache, key, now);
    if cached.Some? {
      var e := Find(s.cache, key).value;
      assert Agrees(s.accounts, e);
      var a :| a in s.accounts && ':' !in a.collection && CacheKey(a.collection, a.id) == e.key
        && a.tokenKey == e.tokenKey && e.tokenKey != "";
      KeysAreInjective(a.collection, a.id, collection, id);
      RowIsUnique(s.accounts, a);
    } else {
      var row := Row(s.accounts, collection, id);
      if row.Some? && row.value.tokenKey != "" {
        PutKeeps(s.(cache := cache), row.value, now);
      }
    }
  }

  // ---------------------------------------------------------------- new keys

  /** Another account than the one whose entry is dropped gets the new key as well, and is cached. */
  predicate LeavesStale(s: Auth, w: Where, id: string) {
    exists a, e :: a in s.accounts && e in s.cache && Hits(w, a) && e.key == CacheKey(w.collection, a.id) && a.id != id
  }

  lemma SetKeysIff(accounts: seq<Account>, w: Where, newKey: string, a: Account)
    requires a in accounts
    ensures (if Hits(w, a) then a.(tokenKey := newKey) else a) in SetKeys(accounts, w, newKey)
  {
    var i :| 0 <= i < |accounts| && accounts[i] == a;
    assert SetKeys(accounts, w, newKey)[i] == if Hits(w, a) then a.(tokenKey := newKey) else a;
  }

  /** The entry and its account, taken from the agreement. */
  lemma AccountOf(accounts: seq<Account>, e: Entry) returns (a: Account)
    requires Agrees(accounts, e)
    ensures a in accounts && ':' !in a.collection && CacheKey(a.collection, a.id) == e.key
    ensures a.tokenKey == e.tokenKey && e.tokenKey != ""
  {
    a :| a in accounts && ':' !in a.collection && CacheKey(a.collection, a.id) == e.key && a.tokenKey == e.tokenKey
      && e.tokenKey != "";
  }

  lemma EntryStaysFresh(s: Auth, w: Where, id: string, newKey: string, e: Entry)
    requires Inv(s) && ':' !in w.collection && id != "" && e in Rekey(s, w, id, newKey).cache && !LeavesStale(s, w, id)
    ensures Agrees(Rekey(s, w, id, newKey).accounts, e)
  {
    RemoveKeepsDistinct(s.cache, CacheKey(w.collection, id));
    assert Agrees(s.accounts, e);
    var a := AccountOf(s.accounts, e);
    SetKeysIff(s.accounts, w, newKey, a);
    assert !Hits(w, a);
  }

  lemma StaleEntryDisagrees(s: Auth, w: Where, id: string, newKey: string, a: Account, e: Entry)
    requires Inv(s) && ':' !in w.collection && id != "" && (forall b :: b in s.accounts ==> b.tokenKey != newKey)
    requires a in s.accounts && e in s.cache && Hits(w, a) && e.key == CacheKey(w.collection, a.id) && a.id != id
    ensures var s' := Rekey(s, w, id, newKey); e in s'.cache && !Agrees(s'.accounts, e)
  {
    var s' := Rekey(s, w, id, newKey);
    if CacheKey(w.collection, id) == e.key { KeysAreInjective(w.collection, id, w.collection, a.id); }
    RemoveIff(s.cache, CacheKey(w.collection, id), e);
    var owner := AccountOf(s.accounts, e);
    forall b | b in s'.accounts && ':' !in b.collection && CacheKey(b.collection, b.id) == e.key
      ensures b.tokenKey != e.tokenKey
    {
      KeysAreInjective(b.collection, b.id, w.collection, a.id);
      var i :| 0 <= i < |s'.accounts| && s'.accounts[i] == b;
      RowIsUnique(s.accounts, a);
      RowIsUnique(s.accounts, s.accounts[i]);
      assert s.accounts[i] == a && b.tokenKey == newKey;
    }
  }

  /** After new keys the cache still agrees with the tables if and only if no second account that got one was cached. */
  lemma RekeyAgreesIff(s: Auth, w: Where, id: string, newKey: string)
    requires Inv(s) && ':' !in w.collection && id != "" && forall a :: a in s.accounts ==> a.tokenKey != newKey
    ensures CacheAgrees(Rekey(s, w, id, newKey)) <==> !LeavesStale(s, w, id)
  {
    if !LeavesStale(s, w, id) {
      forall e | e in Rekey(s, w, id, newKey).cache ensures Agrees(Rekey(s, w, id, newKey).accounts, e) {
        EntryStaysFresh(s, w, id, newKey, e);
      }
    } else {
      var a, e :| a in s.accounts && e in s.cache && Hits(w, a) && e.key == CacheKey(w.collection, a.id) && a.id != id;
      StaleEntryDisagrees(s, w, id, newKey, a, e);
    }
  }

  /** A revocation: the account found first is the one whose entry is dropped. */
  lemma RevokeAgreesIff(s: Auth, w: Where, newKey: string)
    requires Inv(s) && ':' !in w.collection && forall a :: a in s.accounts ==> a.tokenKey != newKey
    ensures CacheAgrees(RevokeSessions(s, w, newKey))
       <==> FirstHit(s.accounts, w).None? || !LeavesStale(s, w, FirstHit(s.accounts, w).value.id)
  {
    if FirstHit(s.accounts, w).Some? {
      RekeyAgreesIff(s, w, FirstHit(s.accounts, w).value.id, newKey);
    }
  }

  /**
   * Whoever has the address of a password change when it is finished is the admin found when it began, or not cached.
   */
  predicate HolderUnchanged(s: Auth, c: Change) {
    forall a :: a in s.accounts && a.collection == ADMINS && a.email == c.email ==>
      a.id == c.id || Find(s.cache, CacheKey(ADMINS, a.id)).None?
  }

  /** The second stretch of a password change, in any state whatever happened since the first. */
  lemma PasswordChangeAgreesIff(s: Auth, c: Change, newKey: string)
    requires Inv(s.(changes := multiset{})) && c in s.changes && c.id != ""
    requires forall a :: a in s.accounts ==> a.tokenKey != newKey
    ensures CacheAgrees(FinishPasswordChange(s, c, newKey)) <==> HolderUnchanged(s, c)
  {
    var w, calm := Email(ADMINS, c.email), s.(changes := multiset{});
    RekeyAgreesIff(calm, w, c.id, newKey);
    assert FinishPasswordChange(s, c, newKey).cache == Rekey(calm, w, c.id, newKey).cache;
    assert FinishPasswordChange(s, c, newKey).accounts == Rekey(calm, w, c.id, newKey).accounts;
    forall a | a in s.accounts && a.collection == ADMINS && a.email == c.email && a.id != c.id
      && Find(s.cache, CacheKey(ADMINS, a.id)).Some?
      ensures LeavesStale(calm, w, c.id)
    {
      assert Hits(w, a) && Find(s.cache, CacheKey(ADMINS, a.id)).value in s.cache;
    }
  }

  /** Ids and e-mail addresses are disjoint as far as this lookup goes: it finds one account at most. */
  predicate OneHit(accounts: seq<Account>, w: Where) {
    forall a, b :: a in accounts && b in accounts && Hits(w, a) && Hits(w, b) ==> a.id == b.id
  }

  /** Changing keys leaves ids, collections and addresses alone. */
  lemma SetKeysKeeps(accounts: seq<Account>, w: Where, newKey: string)
    requires DistinctRows(accounts) && Named(accounts) && DistinctEmails(accounts)
    ensures var r := SetKeys(accounts, w, newKey); DistinctRows(r) && Named(r) && DistinctEmails(r)
    ensures forall c :: StillHolds(accounts, c) ==> StillHolds(SetKeys(accounts, w, newKey), c)
  {
    var r := SetKeys(accounts, w, newKey);
    forall a | a in r
      ensures exists b :: b in accounts && b.collection == a.collection && b.id == a.id && b.email == a.email
    {
      var i :| 0 <= i < |r| && r[i] == a;
      assert accounts[i] in accounts;
    }
    forall c | StillHolds(accounts, c) ensures StillHolds(r, c) {
      var a :| a in accounts && a.collection == ADMINS && a.id == c.id && a.email == c.email;
      SetKeysIff(accounts, w, newKey, a);
    }
  }

  lemma RekeyKeeps(s: Auth, w: Where, id: string, newKey: string)
    requires Inv(s) && ':' !in w.collection && id != "" && !LeavesStale(s, w, id)
    ensures Inv(Rekey(s, w, id, newKey))
  {
    var s' := Rekey(s, w, id, newKey);
    SetKeysKeeps(s.accounts, w, newKey);
    RemoveKeepsDistinct(s.cache, CacheKey(w.collection, id));
    forall e | e in s'.cache ensures Agrees(s'.accounts, e) {
      EntryStaysFresh(s, w, id, newKey, e);
    }
  }

  lemma RevokeKeeps(s: Auth, w: Where, newKey: string)
    requires Inv(s) && ':' !in w.collection && OneHit(s.accounts, w)
    ensures Inv(RevokeSessions(s, w, newKey))
  {
    var existing := FirstHit(s.accounts, w);
    if existing.Some? {
      assert !LeavesStale(s, w, existing.value.id);
      RekeyKeeps(s, w, existing.value.id, newKey);
    }
  }

  // ---------------------------------------------------------------- the other actions

  lemma BeginKeeps(s: Auth, email: string, longEnough: bool)
    requires Inv(s)
    ensures Inv(BeginPasswordChange(s, email, longEnough))
  {
    var admin := FirstHit(s.accounts, Email(ADMINS, email));
    if admin.Some? {
      assert StillHolds(s.accounts, Change(email, admin.value.id));
    }
  }

  lemma FinishKeeps(s: Auth, c: Change, newKey: string)
    requires Inv(s)
    ensures Inv(FinishPasswordChange(s, c, newKey))
  {
    if c in s.changes {
      var rest := s.(changes := s.changes - multiset{c});
      assert StillHolds(s.accounts, c);
      assert Inv(rest);
      assert !LeavesStale(rest, Email(ADMINS, c.email), c.id);
      RekeyKeeps(rest, Email(ADMINS, c.email), c.id, newKey);
    }
  }

  lemma MoreAccounts(accounts: seq<Account>, a: Account)
    ensures forall e :: Agrees(accounts, e) ==> Agrees(accounts + [a], e)
    ensures forall c :: StillHolds(accounts, c) ==> StillHolds(accounts + [a], c)
  {
    forall e | Agrees(accounts, e) ensures Agrees(accounts + [a], e) {
      var b := AccountOf(accounts, e);
      assert b in accounts + [a];
    }
    forall c | StillHolds(accounts, c) ensures StillHolds(accounts + [a], c) {
      var b :| b in accounts && b.collection == ADMINS && b.id == c.id && b.email == c.email;
      assert b in accounts + [a];
    }
  }

  lemma CreateKeeps(s: Auth, a: Account)
    requires Inv(s) && ':' !in a.collection && a.id != ""
    ensures Inv(CreateAccount(s, a))
  {
    MoreAccounts(s.accounts, a);
    if FirstHit(s.accounts, IdOrEmail(a.collection, a.id, a.email)).None? {
      forall i | 0 <= i < |s.accounts| ensures !IsRow(a, s.accounts[i].collection, s.accounts[i].id) {
        assert s.accounts[i] in s.accounts;
      }
    }
  }

  /** The rows after one has been written over: that one, and the others as they were. */
  lemma SetRowIff(accounts: seq<Account>, a: Account)
    ensures forall b :: b in SetRow(accounts, a) ==> b == a || (b in accounts && !IsRow(b, a.collection, a.id))
    ensures forall b :: b in accounts && !IsRow(b, a.collection, a.id) ==> b in SetRow(accounts, a)
  {
    var r := SetRow(accounts, a);
    forall b | b in accounts && !IsRow(b, a.collection, a.id) ensures b in r {
      var i :| 0 <= i < |accounts| && accounts[i] == b;
      assert r[i] == b;
    }
    forall b | b in r ensures b == a || (b in accounts && !IsRow(b, a.collection, a.id)) {
      var i :| 0 <= i < |r| && r[i] == b;
    }
  }

  lemma SetRowKeeps(accounts: seq<Account>, a: Account)
    requires DistinctRows(accounts) && Named(accounts) && DistinctEmails(accounts) && ':' !in a.collection && a.id != ""
    requires forall b :: b in accounts && b.collection == a.collection && b.email == a.email ==> b.id == a.id
    ensures var r := SetRow(accounts, a); DistinctRows(r) && Named(r) && DistinctEmails(r)
  {
    SetRowIff(accounts, a);
    var r := SetRow(accounts, a);
    forall i, j | 0 <= i < j < |r| ensures !IsRow(r[j], r[i].collection, r[i].id) {
      assert !IsRow(accounts[j], accounts[i].collection, accounts[i].id);
    }
  }

  /** No other account of the collection has the address. */
  lemma AddressFree(s: Auth, a: Account)
    requires DistinctEmails(s.accounts)
    requires var holder := FirstHit(s.accounts, Email(a.collection, a.email)); holder.None? || holder.value.id == a.id
    ensures forall b :: b in s.accounts && b.collection == a.collection && b.email == a.email ==> b.id == a.id
  {
    forall b | b in s.accounts && b.collection == a.collection && b.email == a.email ensures b.id == a.id {
      assert Hits(Email(a.collection, a.email), b);
    }
  }

  lemma UpdateKeeps(s: Auth, a: Account)
    requires Inv(s) && ':' !in a.collection && a.collection != ADMINS && a.id != ""
    ensures Inv(UpdateAccount(s, a))
  {
    var holder := FirstHit(s.accounts, Email(a.collection, a.email));
    if holder.None? || holder.value.id == a.id {
      var r := SetRow(s.accounts, a);
      RemoveKeepsDistinct(s.cache, CacheKey(a.collection, a.id));
      AddressFree(s, a);
      SetRowKeeps(s.accounts, a);
      SetRowIff(s.accounts, a);
      forall e | e in s.cache && e.key != CacheKey(a.collection, a.id) ensures Agrees(r, e) {
        assert Agrees(s.accounts, e);
        var b := AccountOf(s.accounts, e);
        assert b in r;
      }
      forall c | c in s.changes ensures StillHolds(r, c) {
        assert StillHolds(s.accounts, c);
        var b :| b in s.accounts && b.collection == ADMINS && b.id == c.id && b.email == c.email;
        assert b in r;
      }
    }
  }

  lemma {:induction false} DeleteRowIff(accounts: seq<Account>, collection: string, id: string, a: Account)
    ensures a in DeleteRow(accounts, collection, id) <==> a in accounts && !IsRow(a, collection, id)
  {
    if accounts != [] {
      DeleteRowIff(accounts[1..], collection, id, a);
      assert a in accounts <==> a == accounts[0] || a in accounts[1..];
    }
  }

  lemma {:induction false} DeleteRowDistinct(accounts: seq<Account>, collection: string, id: string)
    requires DistinctRows(accounts)
    ensures DistinctRows(DeleteRow(accounts, collection, id))
  {
    if accounts != [] {
      DeleteRowDistinct(accounts[1..], collection, id);
      forall a | a in DeleteRow(accounts[1..], collection, id)
        ensures !IsRow(a, accounts[0].collection, accounts[0].id)
      {
        DeleteRowIff(accounts[1..], collection, id, a);
        var k :| 0 <= k < |accounts[1..]| && accounts[1..][k] == a;
        assert accounts[k + 1] == a;
      }
    }
  }

  lemma DeleteKeeps(s: Auth, collection: string, id: string)
    requires Inv(s) && ':' !in collection && collection != ADMINS
    ensures Inv(DeleteAccount(s, collection, id))
  {
    var s' := DeleteAccount(s, collection, id);
    RemoveKeepsDistinct(s.cache, CacheKey(collection, id));
    DeleteRowDistinct(s.accounts, collection, id);
    forall a | a in s'.accounts ensures a in s.accounts { DeleteRowIff(s.accounts, collection, id, a); }
    forall e | e in s'.cache ensures Agrees(s'.accounts, e) {
      assert Agrees(s.accounts, e);
      var a := AccountOf(s.accounts, e);
      DeleteRowIff(s.accounts, collection, id, a);
    }
    forall c | c in s.changes ensures StillHolds(s'.accounts, c) {
      assert StillHolds(s.accounts, c);
      var a :| a in s.accounts && a.collection == ADMINS && a.id == c.id && a.email == c.email;
      DeleteRowIff(s.accounts, collection, id, a);
    }
  }

  // ---------------------------------------------------------------- whole runs

  /**
   * What the steps of a run keep to: collection names have no colon, a revocation's id or address is not another
   * account's address or id, and only the service itself writes the admins, which it never deletes or readdresses.
   */
  predicate Plain(s: Auth, a: Action) {
    match a
    case Verify(collection, _, _, _) => ':' !in collection
    case Revoke(w, _) => ':' !in w.collection && OneHit(s.accounts, w)
    case Create(account) => ':' !in account.collection && account.id != ""
    case Update(account) => ':' !in account.collection && account.id != "" && account.collection != ADMINS
    case Delete(collection, _) => ':' !in collection && collection != ADMINS
    case _ => true
  }

  predicate PlainRun(s: Auth, actions: seq<Action>)
    decreases |actions|
  {
    actions == [] || (Plain(s, actions[0]) && PlainRun(Next(s, actions[0]), actions[1..]))
  }

  lemma NextKeeps(s: Auth, a: Action)
    requires Inv(s) && Plain(s, a)
    ensures Inv(Next(s, a))
  {
    match a
    case Verify(collection, id, tokenKey, now) => VerifyDecidesAsStorage(s, collection, id, tokenKey, now);
    case Revoke(w, newKey) => RevokeKeeps(s, w, newKey);
    case BeginPassword(email, longEnough) => BeginKeeps(s, email, longEnough);
    case FinishPassword(c, newKey) => FinishKeeps(s, c, newKey);
    case Create(account) => CreateKeeps(s, account);
    case Update(account) => UpdateKeeps(s, account);
    case Delete(collection, id) => DeleteKeeps(s, collection, id);
    case Forget =>
  }

  lemma {:induction false} RunsKeepAgreement(s: Auth, actions: seq<Action>)
    requires Inv(s) && PlainRun(s, actions)
    ensures Inv(Perform(s, actions))
    decreases |actions|
  {
    if actions != [] {
      NextKeeps(s, actions[0]);
      RunsKeepAgreement(Next(s, actions[0]), actions[1..]);
    }
  }

  /**
   * Over any sequence of checks, revocations, password changes with other steps between their two stretches, and
   * accounts created, updated and deleted, starting without a cache: the next check decides as the tables do.
   */
  lemma CachedChecksAgreeWithStorage(accounts: seq<Account>, actions: seq<Action>, collection: string, id: string,
      tokenKey: string, now: int)
    requires DistinctRows(accounts) && Named(accounts) && DistinctEmails(accounts)
    requires PlainRun(Auth(accounts, [], multiset{}), actions) && ':' !in collection
    ensures var s := Perform(Auth(accounts, [], multiset{}), actions);
      && (VerifyToken(s, collection, id, tokenKey, now).1 <==> StorageAccepts(s.accounts, collection, id, tokenKey))
      && |s.cache| <= MAX_SIZE
  {
    var start := Auth(accounts, [], multiset{});
    RunsKeepAgreement(start, actions);
    VerifyDecidesAsStorage(Perform(start, actions), collection, id, tokenKey, now);
  }

  /** In any of these runs the admin of a password change still has the address when the change is finished. */
  lemma HolderStays(accounts: seq<Account>, actions: seq<Action>, c: Change)
    requires DistinctRows(accounts) && Named(accounts) && DistinctEmails(accounts)
    requires PlainRun(Auth(accounts, [], multiset{}), actions)
    requires c in Perform(Auth(accounts, [], multiset{}), actions).changes
    ensures var s := Perform(Auth(accounts, [], multiset{}), actions);
        StillHolds(s.accounts, c) && HolderUnchanged(s, c)
  {
    RunsKeepAgreement(Auth(accounts, [], multiset{}), actions);
    assert StillHolds(Perform(Auth(accounts, [], multiset{}), actions).accounts, c);
  }

  /**
   * Nothing in the service moves an admin's address. If something else does between the two stretches, as a restored
   * table would, a revoked key goes on being accepted: the address of admin 1 has become that of admin 2, who has just
   * been checked.
   */
  lemma MovedAddressLeavesStale(k1: string, k2: string, newKey: string, now: int)
    requires k2 != "" && newKey != k2
    ensures var a1, a2 := Account(ADMINS, "1", "e", k1), Account(ADMINS, "2", "f", k2);
      var s1 := BeginPasswordChange(Auth([a1, a2], [], multiset{}), "e", true);
      var moved := s1.(accounts := [a1.(email := "g"), a2.(email := "e")]);
      var s2 := VerifyToken(moved, ADMINS, "2", k2, now).0;
      var s3 := FinishPasswordChange(s2, Change("e", "1"), newKey);
      && Change("e", "1") in s1.changes
      && VerifyToken(s3, ADMINS, "2", k2, now).1 && !StorageAccepts(s3.accounts, ADMINS, "2", k2)
  {
    var a1, a2 := Account(ADMINS, "1", "e", k1), Account(ADMINS, "2", "f", k2);
    var s1 := BeginPasswordChange(Auth([a1, a2], [], multiset{}), "e", true);
    assert s1.changes == multiset{Change("e", "1")};
    var b1, b2 := a1.(email := "g"), a2.(email := "e");
    var moved := s1.(accounts := [b1, b2]);
    assert [b1, b2][1..] == [b2];
    assert Row([b2], ADMINS, "2") == Some(b2);
    assert Row([b1, b2], ADMINS, "2") == Some(b2);
    var key, e := CacheKey(ADMINS, "2"), Entry(CacheKey(ADMINS, "2"), k2, now + TTL_MS);
    var s2 := VerifyToken(moved, ADMINS, "2", k2, now).0;
    assert s2.cache == [e];
    var s3 := FinishPasswordChange(s2, Change("e", "1"), newKey);
    assert CacheKey(ADMINS, "1")[7..] == ":1" && key[7..] == ":2";
    assert Remove([e], CacheKey(ADMINS, "1")) == [e] + Remove([], CacheKey(ADMINS, "1"));
    assert s3.cache == [e];
    var c2 := b2.(tokenKey := newKey);
    assert s3.accounts == [b1, c2] && [b1, c2][1..] == [c2];
    assert Row([c2], ADMINS, "2") == Some(c2);
  }

  // ---------------------------------------------------------------- least recently used

  /** When a key was last used in a history of uses; zero if never. */
  function LastUse(history: seq<string>, key: string): nat {
    if history == [] then 0
    else if history[|history| - 1] == key then |history|
    else LastUse(history[..|history| - 1], key)
  }

  /** The cache is in the order of last use. */
  predicate InOrder(c: Cache, history: seq<string>) {
    forall i, j :: 0 <= i < j < |c| ==> LastUse(history, c[i].key) < LastUse(history, c[j].key)
  }

  lemma {:induction false} LastUseBounded(history: seq<string>, key: string)
    ensures LastUse(history, key) <= |history|
  {
    if history != [] && history[|history| - 1] != key {
      LastUseBounded(history[..|history| - 1], key);
    }
  }

  lemma UsedNow(history: seq<string>, key: string, other: string)
    ensures LastUse(history + [key], other) == if other == key then |history| + 1 else LastUse(history, other)
  {
    assert (history + [key])[..|history|] == history;
  }

  lemma {:induction false} RemoveKeepsOrder(c: Cache, key: string, history: seq<string>)
    requires InOrder(c, history)
    ensures InOrder(Remove(c, key), history)
  {
    if c != [] {
      RemoveKeepsOrder(c[1..], key, history);
      var rest := Remove(c[1..], key);
      forall i | 0 <= i < |rest| ensures rest[i] in c[1..] {
        RemoveIff(c[1..], key, rest[i]);
      }
    }
  }

  lemma {:induction false} RemovePrefixKeepsOrder(c: Cache, prefix: string, history: seq<string>)
    requires InOrder(c, history)
    ensures InOrder(RemovePrefix(c, prefix), history)
    decreases |c|
  {
    if c != [] {
      RemovePrefixKeepsOrder(c[1..], prefix, history);
      var rest := RemovePrefix(c[1..], prefix);
      forall i | 0 <= i < |rest| ensures rest[i] in c[1..] {
        RemovePrefixIff(c[1..], prefix, rest[i]);
      }
    }
  }

  lemma {:induction false} RemovePrefixKeepsDistinct(c: Cache, prefix: string)
    requires DistinctKeys(c)
    ensures DistinctKeys(RemovePrefix(c, prefix))
    decreases |c|
  {
    if c != [] {
      RemovePrefixKeepsDistinct(c[1..], prefix);
      var rest := RemovePrefix(c[1..], prefix);
      forall i | 0 <= i < |rest| ensures rest[i].key != c[0].key {
        RemovePrefixIff(c[1..], prefix, rest[i]);
      }
    }
  }

  lemma RemovePrefixKeeps(c: Cache, prefix: string, history: seq<string>)
    requires Shaped(c) && InOrder(c, history)
    ensures Shaped(RemovePrefix(c, prefix)) && InOrder(RemovePrefix(c, prefix), history)
  {
    RemovePrefixKeepsOrder(c, prefix, history);
    RemovePrefixKeepsDistinct(c, prefix);
    forall e | e in RemovePrefix(c, prefix) ensures e.key != "" {
      RemovePrefixIff(c, prefix, e);
    }
  }

  /** Using a key moves its entry to the end of the order. */
  lemma UseKeepsOrder(c: Cache, e: Entry, history: seq<string>)
    requires InOrder(c, history) && forall i :: 0 <= i < |c| ==> c[i].key != e.key
    ensures InOrder(c + [e], history + [e.key])
  {
    var c' := c + [e];
    forall i, j | 0 <= i < j < |c'|
      ensures LastUse(history + [e.key], c'[i].key) < LastUse(history + [e.key], c'[j].key)
    {
      UsedNow(history, e.key, c'[i].key);
      UsedNow(history, e.key, c'[j].key);
      LastUseBounded(history, c'[i].key);
    }
  }

  lemma GetKeepsOrder(c: Cache, key: string, now: int, history: seq<string>)
    requires DistinctKeys(c) && InOrder(c, history)
    ensures InOrder(Get(c, key, now).0, if Get(c, key, now).1.Some? then history + [key] else history)
  {
    RemoveKeepsOrder(c, key, history);
    RemoveKeepsDistinct(c, key);
    if Get(c, key, now).1.Some? {
      UseKeepsOrder(Remove(c, key), Find(c, key).value, history);
    }
  }

  /** An insertion keeps the order, and what it evicts was used before everything that stays. */
  lemma PutEvictsLeastRecentlyUsed(c: Cache, key: string, tokenKey: string, now: int, history: seq<string>)
    requires DistinctKeys(c) && InOrder(c, history) && |c| <= MAX_SIZE
    ensures var c' := Put(c, key, tokenKey, now);
      && InOrder(c', history + [key])
      && forall e, kept :: e in c && e.key != key && e !in c' && kept in c' ==>
           LastUse(history + [key], e.key) < LastUse(history + [key], kept.key)
  {
    var without, c' := Remove(c, key), Put(c, key, tokenKey, now);
    RemoveKeepsOrder(c, key, history);
    RemoveKeepsDistinct(c, key);
    var room := c'[..|c'| - 1];
    if |without| >= MAX_SIZE && without[0].key != "" {
      RemoveKeepsOrder(without, without[0].key, history);
      RemoveKeepsDistinct(without, without[0].key);
    }
    assert c' == room + [Entry(key, tokenKey, now + TTL_MS)];
    UseKeepsOrder(room, Entry(key, tokenKey, now + TTL_MS), history);
    forall e, kept | e in c && e.key != key && e !in c' && kept in c'
      ensures LastUse(history + [key], e.key) < LastUse(history + [key], kept.key)
    {
      EvictedIsFirst(c, key, tokenKey, now, e);
      UsedNow(history, key, e.key);
      UsedNow(history, key, kept.key);
      LastUseBounded(history, e.key);
      if kept.key != key {
        RemoveIff(without, without[0].key, kept);
        var j :| 0 <= j < |without| && without[j] == kept;
        assert j > 0;
      }
    }
  }

  lemma EvictedIsFirst(c: Cache, key: string, tokenKey: string, now: int, e: Entry)
    requires DistinctKeys(c) && e in c && e.key != key && e !in Put(c, key, tokenKey, now)
    ensures var without := Remove(c, key); |without| >= MAX_SIZE && e == without[0] && without[0].key != ""
  {
    var without := Remove(c, key);
    RemoveIff(c, key, e);
    RemoveKeepsDistinct(c, key);
    if |without| >= MAX_SIZE && without[0].key != "" {
      RemoveIff(without, without[0].key, e);
      var j :| 0 <= j < |without| && without[j] == e;
    }
  }
}
