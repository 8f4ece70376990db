/** The token checks of src/auth/AuthService.ts over their cache, which is reordered, evicted and cleared in place. */
module AuthService {
  import opened Strings
  import opened TokenCache

  class TokenKeys {
    var accounts: seq<Account>
    var tokenKeyCache: Cache

    /** What the event loop holds: password changes that wait for their hash. */
    var hashing: multiset<Change>

    /** History: the keys that were read or stored, in order. */
    ghost var uses: seq<string>

    ghost function View(): Auth
      reads this
    {
      Auth(accounts, tokenKeyCache, hashing)
    }

    /** One entry a key, at most 5000 of them, in the order of their last use. */
    ghost predicate Valid()
      reads this
    {
      Shaped(tokenKeyCache) && InOrder(tokenKeyCache, uses)
    }

    constructor (accounts: seq<Account>)
      ensures Valid() && View() == Auth(accounts, [], multiset{})
    {
      this.accounts, tokenKeyCache, hashing, uses := accounts, [], multiset{}, [];
    }

    method GetCachedTokenKey(cacheKey: string, now: int) returns (tokenKey: Option<string>)
      requires Valid()
      modifies this`tokenKeyCache, this`uses
      ensures Valid() && tokenKeyCache == Get(old(tokenKeyCache), cacheKey, now).0
      ensures tokenKey == Get(old(tokenKeyCache), cacheKey, now).1
    {
      GetShaped(tokenKeyCache, cacheKey, now);
      GetKeepsOrder(tokenKeyCache, cacheKey, now, uses);
      var entry := Find(tokenKeyCache, cacheKey);
      if entry.None? {
        return None;
      }
      if now > entry.value.expiresAt {
        tokenKeyCache := Remove(tokenKeyCache, cacheKey);
        return None;
      }
      tokenKeyCache := Remove(tokenKeyCache, cacheKey);
      tokenKeyCache := tokenKeyCache + [entry.value];
      uses := uses + [cacheKey];
      return Some(entry.value.tokenKey);
    }

    /** An empty key is never evicted, so the bound needs a key that is not. */
    method SetCachedTokenKey(cacheKey: string, tokenKey: string, now: int)
      requires Valid()
      modifies this`tokenKeyCache, this`uses
      ensures tokenKeyCache == Put(old(tokenKeyCache), cacheKey, tokenKey, now)
      ensures cacheKey != "" ==> Valid()
    {
      if cacheKey != "" {
        PutShaped(tokenKeyCache, cacheKey, tokenKey, now);
      }
      PutEvictsLeastRecentlyUsed(tokenKeyCache, cacheKey, tokenKey, now, uses);
      tokenKeyCache := Remove(tokenKeyCache, cacheKey);
      if |tokenKeyCache| >= MAX_SIZE {
        var firstKey := tokenKeyCache[0].key;
        if firstKey != "" {
          tokenKeyCache := Remove(tokenKeyCache, firstKey);
        }
      }
      tokenKeyCache := tokenKeyCache + [Entry(cacheKey, tokenKey, now + TTL_MS)];
      uses := uses + [cacheKey];
    }

    /** A token that has been decoded; `accepted` says that no UnauthorizedError was thrown. */
    method VerifyToken(collection: string, id: string, tokenKey: string, now: int) returns (accepted: bool)
      requires Valid()
      modifies this`tokenKeyCache, this`uses
      ensures Valid() && View() == old(TokenCache.VerifyToken(View(), collection, id, tokenKey, now)).0
      ensures old(Inv(View())) && ':' !in collection ==>
        Inv(View()) && (accepted <==> StorageAccepts(accounts, collection, id, tokenKey))
    {
      if Inv(View()) && ':' !in collection {
        VerifyDecidesAsStorage(View(), collection, id, tokenKey, now);
      }
      var cacheKey := CacheKey(collection, id);
      var cached := GetCachedTokenKey(cacheKey, now);
      if cached.Some? {
        return cached.value == tokenKey;
      }
      var record := Row(accounts, collection, id);
      if record.None? || record.value.tokenKey == "" || record.value.tokenKey != tokenKey {
        return false;
      }
      SetCachedTokenKey(cacheKey, record.value.tokenKey, now);
      return true;
    }

    /** invalidateTokenCache with a collection, and an id unless it is empty. */
    method InvalidateTokenCache(collection: string, id: string)
      requires Valid()
      modifies this`tokenKeyCache
      ensures Valid()
      ensures tokenKeyCache == Invalidate(old(tokenKeyCache), collection, id)
    {
      if id != "" {
        RemoveKeepsOrder(tokenKeyCache, CacheKey(collection, id), uses);
        RemoveKeepsDistinct(tokenKeyCache, CacheKey(collection, id));
        tokenKeyCache := Remove(tokenKeyCache, CacheKey(collection, id));
      } else {
        RemovePrefixKeeps(tokenKeyCache, collection + ":", uses);
        tokenKeyCache := RemovePrefix(tokenKeyCache, collection + ":");
      }
    }

    /** revokeRecordSessions and revokeAdminSessions; `clean` is the argument trimmed and lower-cased. */
    method RevokeSessions(collection: string, idOrEmail: string, clean: string, newKey: string) returns (found: bool)
      requires Valid()
      modifies this`accounts, this`tokenKeyCache
      ensures Valid()
      ensures View() == old(TokenCache.RevokeSessions(View(), IdOrEmail(collection, idOrEmail, clean), newKey))
      ensures found <==> old(FirstHit(accounts, IdOrEmail(collection, idOrEmail, clean))).Some?
    {
      var w := IdOrEmail(collection, idOrEmail, clean);
      var existing := FirstHit(accounts, w);
      if existing.None? {
        return false;
      }
      accounts := SetKeys(accounts, w, newKey);
      InvalidateTokenCache(collection, existing.value.id);
      return true;
    }

    /** updateAdminPassword up to the await of the hash: `None` is one of its two errors. */
    method BeginPasswordUpdate(email: string, newPassword: string) returns (id: Option<string>)
      requires Valid()
      modifies this`hashing
      ensures Valid() && View() == old(BeginPasswordChange(View(), email, |newPassword| >= 8))
      ensures id.Some? <==> FirstHit(accounts, Email(ADMINS, email)).Some? && |newPassword| >= 8
      ensures id.Some? ==> Change(email, id.value) in hashing
    {
      var admin := FirstHit(accounts, Email(ADMINS, email));
      if admin.None? || |newPassword| < 8 {
        return None;
      }
      hashing := hashing + multiset{Change(email, admin.value.id)};
      return Some(admin.value.id);
    }

    /** The rest of updateAdminPassword, whatever has happened in between. */
    method FinishPasswordUpdate(email: string, id: string, newKey: string)
      requires Valid() && Change(email, id) in hashing
      modifies this`accounts, this`tokenKeyCache, this`hashing
      ensures Valid() && View() == old(FinishPasswordChange(View(), Change(email, id), newKey))
    {
      hashing := hashing - multiset{Change(email, id)};
      accounts := SetKeys(accounts, Email(ADMINS, email), newKey);
      InvalidateTokenCache(ADMINS, id);
    }
  }
}
