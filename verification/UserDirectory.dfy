/**
 Checking API keys against the cached users and keys (`UserDirectory`, `ApiKeyVerifier`), one check
 at a time. The file and the secret store may change between any two reads of them.
 */
module UserDirectory {
  import opened Clocks
  import opened UserCache
  import opened Wrappers

  const API_KEY_CACHE_TTL := 60

  type Digest = int

  /** What was once fetched and put away: the time of that, and the version of the file then. */
  datatype KeyRead = KeyRead(user: string, key: string, time: nat, version: Option<Option<int>>)

  datatype Key = Key(digest: Digest, since: nat)

  predicate Active(users: Users, user: string) {
    user in users && !users[user]
  }

  function ActiveUsers(users: Users): set<string> {
    set user | user in users && !users[user]
  }

  /** A cached key is one that was read, for its user, under this version of the file. */
  ghost predicate Backed(keyReads: seq<KeyRead>, digest: string -> Digest, version: Option<Option<int>>,
                         user: string, key: Key, now: nat)
  {
    exists i :: 0 <= i < |keyReads| && keyReads[i].user == user && digest(keyReads[i].key) == key.digest
      && keyReads[i].time == key.since <= now && keyReads[i].version == version
  }

  lemma BackedStays(keyReads: seq<KeyRead>, digest: string -> Digest, version: Option<Option<int>>, user: string,
                    key: Key, now: nat, more: seq<KeyRead>, later: nat)
    requires Backed(keyReads, digest, version, user, key, now) && now <= later
    ensures Backed(keyReads + more, digest, version, user, key, later)
  {
    var i :| 0 <= i < |keyReads| && keyReads[i].user == user && digest(keyReads[i].key) == key.digest
      && keyReads[i].time == key.since <= now && keyReads[i].version == version;
    assert (keyReads + more)[i] == keyReads[i];
  }

  class UserDirectory {
    const digest: string -> Digest
    /** Whom a token names, None where it names nobody. */
    const userOf: string -> Option<string>
    /** None until the file was looked at. */
    var version: Option<Option<int>>
    var users: Users
    var keys: map<string, Key>
    /** Every key ever read, and every set of active users reported. */
    ghost var keyReads: seq<KeyRead>
    /** What the secret store answered, each time it was asked. */
    ghost var answers: seq<(string, Option<string>)>
    /** Every version of the file that was seen, and every content that was read. */
    ghost var seen: seq<Option<int>>
    ghost var contents: seq<Option<Users>>
    ghost var reported: seq<set<string>>

    /** Every cached key was read under the version of the file the cache stands for. */
    ghost predicate Valid(clock: Clock)
      reads this, clock
    {
      forall user :: user in keys ==> Backed(keyReads, digest, version, user, keys[user], clock.now)
    }

    constructor (digest: string -> Digest, userOf: string -> Option<string>, clock: Clock)
      ensures Valid(clock) && this.digest == digest && this.userOf == userOf
      ensures version == None && keyReads == [] && answers == [] && reported == [] && seen == [] && contents == []
    {
      this.digest, this.userOf := digest, userOf;
      version, users, keys := None, map[], map[];
      keyReads, answers, reported, seen, contents := [], [], [], [], [];
    }

    method UsersFileVersion() returns (version: Option<int>)
      modifies `seen
      ensures seen == old(seen) + [version]
    {
      version := None;
      var present: bool := *;
      if present { var time: int := *; version := Some(time); }
      seen := seen + [version];
    }

    /** Any content, or None: others write the file, and reading it may fail. */
    method ReadUsers() returns (users: Option<Users>)
      modifies `contents
      ensures contents == old(contents) + [users]
    {
      users := None;
      var works: bool := *;
      if works { var content: Users := *; users := Some(content); }
      contents := contents + [users];
    }

    method GetApiKey(user: string) returns (key: Option<string>)
      modifies `answers
      ensures answers == old(answers) + [(user, key)]
    {
      key := None;
      var stored: bool := *;
      if stored { var text: string := *; key := Some(text); }
      answers := answers + [(user, key)];
    }

    /** The secret store was asked, and what it answered is not the token. */
    twostate predicate RefusedByStore(user: string, token: string)
      reads this
    {
      exists key :: answers == old(answers) + [(user, key)] && (key.Some? ==> digest(key.value) != digest(token))
    }

    /** Leaves the cache alone where the version is the one it stands for. Otherwise loads the users, none
        where that fails, drops every key and reports who is active. */
    method CurrentUsers(clock: Clock) returns (current: Users)
      requires Valid(clock)
      modifies this
      ensures Valid(clock) && keyReads == old(keyReads) && answers == old(answers)
      ensures |seen| == |old(seen)| + 1 && version == Some(seen[|old(seen)|]) && current == users
      ensures version == old(version) ==>
                users == old(users) && keys == old(keys) && reported == old(reported) && contents == old(contents)
      ensures version != old(version) ==>
                && |contents| == |old(contents)| + 1
                && users == (if contents[|old(contents)|].Some? then contents[|old(contents)|].value else map[])
                && keys == map[] && |reported| == |old(reported)| + 1 && old(reported) <= reported
                && forall user :: user in reported[|old(reported)|] <==> user in users && users[user] == false
    {
      var seen := UsersFileVersion();
      if version == Some(seen) { return users; }
      var content := ReadUsers();
      version := Some(seen);
      users := if content.Some? then content.value else map[];
      keys := map[];
      reported := reported + [ActiveUsers(users)];
      return users;
    }

    /** Says yes to a cached key that is younger than a minute when it is looked at, without asking the
        store; otherwise puts away the key the store answers with, and says whether it is the token. */
    method ApiKeyMatches(user: string, token: string, clock: Clock)
      returns (matches: bool, ghost looked: nat, ghost put: nat)
      requires Valid(clock)
      modifies `keys, `keyReads, `answers, clock
      ensures Valid(clock) && old(clock.now) <= looked <= put <= clock.now
      ensures if user in old(keys) && looked - old(keys)[user].since < 60
                 && old(keys)[user].digest == digest(token) then
                matches && keys == old(keys) && keyReads == old(keyReads) && answers == old(answers)
              else
                && |answers| == |old(answers)| + 1 && answers == old(answers) + [answers[|old(answers)|]]
                && var (asked, key) := answers[|old(answers)|];
                   && asked == user && (matches <==> key.Some? && digest(key.value) == digest(token))
                   && keys == (if key.Some? then old(keys)[user := Key(digest(key.value), put)] else old(keys))
                   && keyReads == old(keyReads) + if key.Some? then [KeyRead(user, key.value, put, version)] else []
      ensures matches ==>
                exists i :: 0 <= i < |keyReads| && keyReads[i].user == user && digest(keyReads[i].key) == digest(token)
                  && keyReads[i].version == version
                  && (i >= old(|keyReads|) || clock.now - keyReads[i].time < 60)
      ensures forall i :: |old(keyReads)| <= i < |keyReads| ==>
                answers == old(answers) + [(keyReads[i].user, Some(keyReads[i].key))]
      ensures !matches ==> RefusedByStore(user, token)
    {
      ghost var start, before := clock.now, keyReads;
      var presented := digest(token);
      var now := clock.Monotonic();
      looked, put := now, now;
      if user in keys { BackedStays(before, digest, version, user, keys[user], start, [], now); }
      if user in keys && now - keys[user].since < API_KEY_CACHE_TTL && keys[user].digest == presented {
        KeysStayBacked(start, before, keys, [], clock);
        return true, looked, put;
      }
      var key := GetApiKey(user);
      if key.None? {
        KeysStayBacked(start, before, keys, [], clock);
        return false, looked, put;
      }
      now := clock.Monotonic();
      put := now;
      ghost var read := KeyRead(user, key.value, now, version);
      keyReads := keyReads + [read];
      KeysStayBacked(start, before, keys, [read], clock);
      keys := keys[user := Key(digest(key.value), now)];
      assert keyReads[|before|] == read;
      return digest(key.value) == presented, looked, put;
    }

    lemma KeysStayBacked(start: nat, before: seq<KeyRead>, cached: map<string, Key>, more: seq<KeyRead>, clock: Clock)
      requires forall user :: user in cached ==> Backed(before, digest, version, user, cached[user], start)
      requires start <= clock.now && keyReads == before + more
      ensures forall user :: user in cached ==> Backed(keyReads, digest, version, user, cached[user], clock.now)
    {
      forall user | user in cached ensures Backed(keyReads, digest, version, user, cached[user], clock.now) {
        BackedStays(before, digest, version, user, cached[user], start, more, clock.now);
      }
    }

    /** `verify_token_sync`: the user a token is accepted for. */
    method VerifyToken(token: string, clock: Clock) returns (accepted: Option<string>)
      requires Valid(clock)
      modifies this, clock
      ensures Valid(clock)
      ensures accepted.Some? ==>
                && userOf(token) == accepted && accepted.value in users && users[accepted.value] == false
                && exists i :: 0 <= i < |keyReads| && keyReads[i].user == accepted.value
                     && digest(keyReads[i].key) == digest(token) && keyReads[i].version == version
                     && (i >= old(|keyReads|) || clock.now - keyReads[i].time < 60)
      ensures forall i :: |old(keyReads)| <= i < |keyReads| ==>
                answers == old(answers) + [(keyReads[i].user, Some(keyReads[i].key))]
      ensures userOf(token).None? || userOf(token).value !in users || users[userOf(token).value] ==>
                accepted.None? && answers == old(answers)
      ensures accepted.None? && userOf(token).Some?
              && userOf(token).value in users && users[userOf(token).value] == false ==>
                RefusedByStore(userOf(token).value, token)
    {
      var user := userOf(token);
      if user.None? { return None; }
      var current := CurrentUsers(clock);
      if !Active(current, user.value) { return None; }
      var matches;
      ghost var looked, put;
      matches, looked, put := ApiKeyMatches(user.value, token, clock);
      return if matches then user else None;
    }
  }
}
