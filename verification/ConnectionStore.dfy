/**
 The stored connections (`_resolve_in_kind`, `find_connection`, `store_connection`,
 `drop_superseded_spellings`, `delete_connection`) and the tools that reconfigure them
 (`db.add_connection`, `db.update_connection`).

 The secrets are the ones in the current key format. Reading, listing, storing and deleting may each
 fail, a store or delete that fails may have happened all the same, and the trace holds the secrets
 after every store and delete. How a connection is shown is in a file of its own (module
 ConnectionDetails).
 */
module ConnectionStore {
  import opened ConnectionDetails
  import opened ConnectionUri
  import opened KeyUpgrade
  import opened Wrappers

  const MAX_CONNECTION_KEY_BYTES := 256

  type Secrets = map<Id, string>

  /** A refusal comes before anything is written; anything else the shell raised. */
  datatype Error = Refused | Failed

  // --- Naming a connection ----------------------------------------------------------------------------

  /** Two spellings of one connection. */
  predicate Same(u: UriShell, a: string, b: string) {
    Normalize(u, a).Some? && Normalize(u, a) == Normalize(u, b)
  }

  predicate Named(u: UriShell, secrets: Secrets, kind: Kind, uri: string, configured: string) {
    Id(kind, configured) in secrets && Same(u, configured, uri)
  }

  /** What `_resolve_in_kind` answers: the stored spelling itself, or the only one that names the
      same connection. */
  ghost predicate Resolves(u: UriShell, secrets: Secrets, kind: Kind, uri: string, r: Result<Option<string>, Error>) {
    if Id(kind, uri) in secrets then r == Ok(Some(uri))
    else match r
      case Ok(None) => forall c :: !Named(u, secrets, kind, uri, c)
      case Ok(Some(c)) => Named(u, secrets, kind, uri, c) && forall d :: Named(u, secrets, kind, uri, d) ==> d == c
      case Err(e) =>
        e == Refused && exists c, d :: c != d && Named(u, secrets, kind, uri, c) && Named(u, secrets, kind, uri, d)
  }

  /** There is one answer. */
  lemma ResolvesIsFunctional(u: UriShell, secrets: Secrets, kind: Kind, uri: string,
                             r: Result<Option<string>, Error>, s: Result<Option<string>, Error>)
    requires Resolves(u, secrets, kind, uri, r) && Resolves(u, secrets, kind, uri, s)
    ensures r == s
  {
    hide Named;
  }

  /** The other spellings of a connection that are stored. */
  ghost function Others(u: UriShell, secrets: Secrets, kind: Kind, uri: string): set<Id> {
    set id | id in secrets && id.kind == kind && id.uri != uri && Same(u, id.uri, uri)
  }

  /** Every spelling of the connection resolves to this one. */
  ghost predicate Unambiguous(u: UriShell, secrets: Secrets, kind: Kind, target: string) {
    forall uri :: uri == target || Same(u, uri, target) ==> Resolves(u, secrets, kind, uri, Ok(Some(target)))
  }

  /** A stored connection is what all its spellings resolve to exactly when no other one is stored. */
  lemma UnambiguousExactlyWithoutOthers(u: UriShell, secrets: Secrets, kind: Kind, target: string)
    requires Id(kind, target) in secrets
    ensures Unambiguous(u, secrets, kind, target) <==> Others(u, secrets, kind, target) == {}
  {
    if Others(u, secrets, kind, target) == {} {
      forall uri | uri == target || Same(u, uri, target)
        ensures Resolves(u, secrets, kind, uri, Ok(Some(target)))
      {
        if Id(kind, uri) in secrets {
          assert uri != target ==> Id(kind, uri) in Others(u, secrets, kind, target);
        } else {
          forall d | Named(u, secrets, kind, uri, d) ensures d == target {
            assert d != target ==> Id(kind, d) in Others(u, secrets, kind, target);
          }
        }
      }
    } else {
      var id :| id in Others(u, secrets, kind, target);
      assert Id(kind, id.uri) == id && !Resolves(u, secrets, kind, id.uri, Ok(Some(target)));
    }
  }

  // --- What reconfiguring leaves -------------------------------------------------------------------

  /** The target stored, every other spelling of it gone. */
  ghost function Configured(u: UriShell, secrets: Secrets, target: Id, password: string): Secrets {
    secrets[target := password] - Others(u, secrets, target.kind, target.uri)
  }

  ghost predicate LessSome(before: Secrets, now: Secrets, gone: set<Id>) {
    && (forall id :: id in now ==> id in before && now[id] == before[id])
    && (forall id :: id in before && id !in gone ==> id in now)
  }

  /** On the way there: the connection has its password, and no other one is touched. */
  ghost predicate OnTheWay(u: UriShell, before: Secrets, now: Secrets, target: Id, password: string, moved: set<Id>) {
    || now == before
    || (&& target in now && now[target] == password
        && LessSome(before[target := password], now, Others(u, before, target.kind, target.uri) + moved))
  }

  lemma OthersWithTarget(u: UriShell, secrets: Secrets, target: Id, password: string)
    ensures Others(u, secrets[target := password], target.kind, target.uri)
            == Others(u, secrets, target.kind, target.uri)
    ensures target !in Others(u, secrets, target.kind, target.uri)
  {
  }

  lemma ConfiguredIsUnambiguous(u: UriShell, secrets: Secrets, target: Id, password: string, gone: set<Id>)
    requires target !in gone
    ensures target in Configured(u, secrets, target, password) - gone
    ensures Unambiguous(u, Configured(u, secrets, target, password) - gone, target.kind, target.uri)
  {
    var now := Configured(u, secrets, target, password) - gone;
    OthersWithTarget(u, secrets, target, password);
    assert Others(u, now, target.kind, target.uri) == {};
    UnambiguousExactlyWithoutOthers(u, now, target.kind, target.uri);
  }

  class Store {
    const u: UriShell
    const norm: Normalizer
    const keyBytes: Id -> nat
    var secrets: Secrets
    /** connections.json. */
    var file: Files
    ghost var trace: seq<Secrets>
    /** Deletions of a secret that was not there. */
    ghost var misses: nat
    /** Readings of the file that failed and gave nothing. */
    ghost var unread: nat
    /** Other failures of the shell's, or of writing the file. */
    ghost var faults: nat

    constructor (u: UriShell, norm: Normalizer, keyBytes: Id -> nat, secrets: Secrets, file: Files)
      ensures this.u == u && this.norm == norm && this.secrets == secrets && this.file == file
      ensures trace == [] && misses == 0 && unread == 0 && faults == 0
    {
      this.u, this.norm, this.keyBytes, this.secrets, this.file := u, norm, keyBytes, secrets, file;
      trace, misses, unread, faults := [], 0, 0, 0;
    }

    /** What the file holds, or nothing, which is counted. */
    method ReadFile() returns (read: Files)
      modifies `unread
      ensures unread == old(unread) ==> read == file
      ensures unread != old(unread) ==> unread == old(unread) + 1 && read == map[]
    {
      var works: bool := *;
      if !works {
        unread := unread + 1;
        return map[];
      }
      return file;
    }

    /** Replaces the file whole, without the details of what is not stored; or fails, because the
        secrets cannot be listed or the file not written. */
    method WriteFile(details: Files) returns (written: Written)
      modifies `file, `faults
      ensures file == if written.Written? then OfStored(details, secrets.Keys) else old(file)
      ensures faults == old(faults) + if written.Written? then 0 else 1
    {
      written := *;
      if written.Written? {
        file := map id | id in details && id in secrets && details[id] != NONE :: details[id];
      } else {
        faults := faults + 1;
      }
    }

    /** `set_connection_details`. */
    method SetDetails(id: Id, changes: Changes) returns (r: Result<(), Error>)
      modifies `file, `unread, `faults
      ensures faults >= old(faults) && (r == Err(Failed) ==> faults > old(faults))
      ensures r == Err(Refused) <==> Settled(norm, changes).None?
      ensures r.Err? ==> file == old(file)
      ensures unread >= old(unread)
      ensures r.Ok? && unread == old(unread) ==>
                file == WithDetails(old(file), secrets.Keys, id, Settled(norm, changes).value)
      ensures r.Ok? && unread != old(unread) && changes != Changes(None, None, None) ==>
                file == WithDetails(map[], secrets.Keys, id, Settled(norm, changes).value)
    {
      var settled := Settled(norm, changes);
      if settled.None? { return Err(Refused); }
      var read := ReadFile();
      if settled.value == Changes(None, None, None) { return Ok(()); }
      var written := WriteFile(read[id := Changed(Shown(read, id), settled.value)]);
      return if written.Written? then Ok(()) else Err(Failed);
    }

    /** `_drop_connection_details`: best effort, but for a failure to list the secrets. */
    method DropDetails(id: Id) returns (r: Result<(), Error>)
      modifies `file, `unread, `faults
      ensures r.Err? ==> r.error == Failed && faults > old(faults)
      ensures unread >= old(unread) && faults >= old(faults)
      ensures unread == old(unread) ==> file in {old(file), OfStored(old(file) - {id}, secrets.Keys)}
      ensures unread == old(unread) && faults == old(faults) ==>
                file == if id in old(file) then OfStored(old(file) - {id}, secrets.Keys) else old(file)
    {
      var read := ReadFile();
      if id !in read { return Ok(()); }
      var written := WriteFile(read - {id});
      return if written.Unlisted? then Err(Failed) else Ok(());
    }

    method ListStored(kind: Kind) returns (r: Result<seq<string>, Error>)
      modifies `faults
      ensures r.Err? ==> r.error == Failed && faults > old(faults)
      ensures r.Ok? ==> faults == old(faults)
      ensures r.Ok? ==> forall uri :: uri in r.value <==> Id(kind, uri) in secrets
      ensures r.Ok? ==> forall i, j :: 0 <= i < j < |r.value| ==> r.value[i] != r.value[j]
    {
      var works: bool := *;
      if !works {
        faults := faults + 1;
        return Err(Failed);
      }
      var uris: seq<string>, rest := [], secrets.Keys;
      while rest != {}
        invariant forall uri :: Id(kind, uri) in secrets <==> uri in uris || Id(kind, uri) in rest
        invariant forall uri :: uri in uris ==> Id(kind, uri) !in rest
        invariant forall i, j :: 0 <= i < j < |uris| ==> uris[i] != uris[j]
        decreases |rest|
      {
        var id :| id in rest;
        if id.kind == kind { uris := uris + [id.uri]; }
        rest := rest - {id};
      }
      return Ok(uris);
    }

    method ReadPassword(id: Id) returns (r: Result<string, Error>)
      requires id in secrets
      modifies `faults
      ensures if faults == old(faults) then r == Ok(secrets[id]) else faults > old(faults) && r == Err(Failed)
    {
      var works: bool := *;
      if works { return Ok(secrets[id]); }
      faults := faults + 1;
      return Err(Failed);
    }

    method Change(changed: Secrets) returns (ok: bool)
      modifies `secrets, `trace, `faults
      ensures secrets in {changed, old(secrets)} && (ok ==> secrets == changed)
      ensures trace == old(trace) + [secrets]
      ensures faults == old(faults) + if ok then 0 else 1
    {
      ok := *;
      var happens: bool := *;
      if !ok { faults := faults + 1; }
      if ok || happens { secrets := changed; }
      trace := trace + [secrets];
    }

    /** The answer that Resolves describes, unless the secrets cannot be listed. */
    method Resolve(uri: string, kind: Kind) returns (r: Result<Option<string>, Error>)
      modifies `faults
      ensures faults >= old(faults)
      ensures if r == Err(Failed) then faults > old(faults) else Resolves(u, secrets, kind, uri, r)
    {
      hide Normalize;
      var stored := ListStored(kind);
      if stored.Err? { return Err(Failed); }
      var configured := stored.value;
      if uri in configured { return Ok(Some(uri)); }
      if Normalize(u, uri).None? { return Ok(None); }
      var matches: seq<string> := [];
      for i := 0 to |configured|
        invariant forall c :: c in matches <==> c in configured[..i] && Same(u, c, uri)
        invariant forall c :: c in matches ==> Named(u, secrets, kind, uri, c)
        invariant forall a, b :: 0 <= a < b < |matches| ==> matches[a] != matches[b]
      {
        assert configured[i] !in configured[..i];
        if Normalize(u, configured[i]) == Normalize(u, uri) { matches := matches + [configured[i]]; }
      }
      assert forall c :: Named(u, secrets, kind, uri, c) ==> c in configured[..|configured|];
      if matches == [] { return Ok(None); }
      if |matches| > 1 {
        assert matches[0] != matches[1] && matches[0] in matches && matches[1] in matches;
        return Err(Refused);
      }
      assert matches[0] in matches;
      return Ok(Some(matches[0]));
    }

    /** The first list that holds the connection. */
    method Find(uri: string, kinds: seq<Kind>) returns (r: Result<Option<Id>, Error>)
      modifies `faults
      ensures faults >= old(faults) && (r == Err(Failed) ==> faults > old(faults))
      ensures r == Err(Refused) ==>
                exists i :: 0 <= i < |kinds| && Resolves(u, secrets, kinds[i], uri, Err(Refused))
                            && forall j :: 0 <= j < i ==> Resolves(u, secrets, kinds[j], uri, Ok(None))
      ensures r == Ok(None) ==> forall k :: k in kinds ==> Resolves(u, secrets, k, uri, Ok(None))
      ensures r.Ok? && r.value.Some? ==>
                exists i :: 0 <= i < |kinds| && kinds[i] == r.value.value.kind
                  && Resolves(u, secrets, kinds[i], uri, Ok(Some(r.value.value.uri)))
                  && forall j :: 0 <= j < i ==> Resolves(u, secrets, kinds[j], uri, Ok(None))
    {
      hide Resolves;
      for i := 0 to |kinds|
        invariant faults >= old(faults)
        invariant forall j :: 0 <= j < i ==> Resolves(u, secrets, kinds[j], uri, Ok(None))
      {
        var found := Resolve(uri, kinds[i]);
        if found.Err? { return Err(found.error); }
        if found.value.Some? { return Ok(Some(Id(kinds[i], found.value.value))); }
      }
      return Ok(None);
    }

    /** `store_connection`: the password first, the details after it. */
    method StoreConnection(id: Id, password: string, changes: Changes) returns (r: Result<(), Error>)
      requires SteadyNormalizer(norm)
      modifies `secrets, `trace, `file, `unread, `faults
      ensures faults >= old(faults) && (r == Err(Failed) ==> faults > old(faults))
      ensures r.Ok? ==> secrets == old(secrets)[id := password]
      ensures r == Err(Refused) <==> Settled(norm, changes).None? || keyBytes(id) > 256
      ensures r == Err(Refused) ==> secrets == old(secrets) && trace == old(trace) && file == old(file)
      ensures r != Err(Refused) ==>
                trace == old(trace) + [secrets] && secrets in {old(secrets), old(secrets)[id := password]}
      ensures unread >= old(unread)
      ensures r.Ok? && unread == old(unread) ==>
                file == WithDetails(old(file), secrets.Keys, id, Settled(norm, changes).value)
    {
      var settled := Settled(norm, changes);
      if settled.None? { return Err(Refused); }
      if keyBytes(id) > MAX_CONNECTION_KEY_BYTES { return Err(Refused); }
      SettledOnce(norm, changes);
      var ok := Change(secrets[id := password]);
      if !ok { return Err(Failed); }
      if settled.value != Changes(None, None, None) {
        r := SetDetails(id, settled.value);
      } else {
        r := Ok(());
      }
    }

    /** `delete_connection`: the details go once the secret has. */
    method DeleteConnection(id: Id) returns (r: Result<(), Error>)
      modifies `secrets, `trace, `misses, `file, `unread, `faults
      ensures r.Ok? ==> id in old(secrets) && secrets == old(secrets) - {id}
      ensures r.Err? ==> r.error == Failed && (faults > old(faults) || misses > old(misses))
      ensures faults >= old(faults)
      ensures secrets in {old(secrets), old(secrets) - {id}}
      ensures trace == old(trace) + [secrets]
      ensures id in old(secrets) ==> misses == old(misses)
      ensures unread >= old(unread)
      ensures unread == old(unread) ==>
                || file == old(file)
                || (secrets == old(secrets) - {id} && file == OfStored(old(file) - {id}, secrets.Keys))
      ensures unread == old(unread) && faults == old(faults) && id in old(secrets) ==>
                r.Ok? && file == if id in old(file) then OfStored(old(file) - {id}, secrets.Keys) else old(file)
    {
      if id !in secrets {
        misses := misses + 1;
        trace := trace + [secrets];
        return Err(Failed);
      }
      var ok := Change(secrets - {id});
      if !ok { return Err(Failed); }
      r := DropDetails(id);
    }

    /** What the first of some connections that is shown in some way is shown with. */
    method FirstDetails(kind: Kind, uris: seq<string>) returns (first: Details)
      modifies `unread
      ensures unread >= old(unread)
      ensures unread == old(unread) ==> first == FirstShown(file, kind, uris)
    {
      for i := 0 to |uris|
        invariant unread >= old(unread)
        invariant unread == old(unread) ==> FirstShown(file, kind, uris) == FirstShown(file, kind, uris[i..])
      {
        var read := ReadFile();
        first := Shown(read, Id(kind, uris[i]));
        if first != NONE { return; }
      }
      first := NONE;
    }

    /** The connection kept takes over how a superseded spelling was shown, where it has no details. */
    method InheritDetails(id: Id, superseded: seq<string>) returns (r: Result<(), Error>)
      modifies `file, `unread, `faults
      ensures r.Err? ==> r.error == Failed
      ensures faults >= old(faults)
      ensures r.Err? && unread == old(unread) ==>
                faults > old(faults) || Unshowable(norm, old(file), Ids(id.kind, superseded))
      ensures unread >= old(unread)
      ensures r.Ok? && unread == old(unread) ==>
                && (id in secrets ==>
                      Shown(file, id) == Shown(old(file), id).Or(Inherited(norm, old(file), id.kind, superseded)))
                && ShownAlike(old(file), file, secrets.Keys - {id})
    {
      var inherited := FirstDetails(id.kind, superseded);
      if inherited == NONE { return Ok(()); }
      var read := ReadFile();
      if Shown(read, id) != NONE { return Ok(()); }
      var changed := SetDetails(id, All(inherited));
      assert changed.Err? && changed.error.Failed? ==> changed == Err(Failed);
      if changed.Err? && changed.error.Refused? && unread == old(unread) {
        assert changed == Err(Refused);
        AllOfThem(norm, inherited, NONE);
        FirstRefused(norm, old(file), id.kind, superseded, Ids(id.kind, superseded));
      }
      if unread == old(unread) && changed.Ok? {
        InheritingShows(norm, old(file), secrets.Keys, id, inherited);
      }
      return if changed.Ok? then Ok(()) else Err(Failed);
    }

    /** `drop_superseded_spellings`: deletes the other spellings of the connection just stored. */
    method DropSupersededSpellings(id: Id) returns (r: Result<seq<string>, Error>)
      modifies `secrets, `trace, `misses, `file, `unread, `faults
      ensures r.Err? ==> r.error == Failed
      ensures faults >= old(faults)
      ensures r.Err? && unread == old(unread) ==>
                faults > old(faults) || Unshowable(norm, old(file), Others(u, old(secrets), id.kind, id.uri))
      ensures misses == old(misses) && old(trace) <= trace
      ensures LessSome(old(secrets), secrets, Others(u, old(secrets), id.kind, id.uri))
      ensures forall i :: |old(trace)| <= i < |trace| ==>
                LessSome(old(secrets), trace[i], Others(u, old(secrets), id.kind, id.uri))
      ensures r.Ok? ==> secrets == old(secrets) - Others(u, old(secrets), id.kind, id.uri)
      ensures r.Ok? ==> forall uri :: uri in r.value <==> Id(id.kind, uri) in Others(u, old(secrets), id.kind, id.uri)
      ensures unread >= old(unread)
      ensures r.Ok? && unread == old(unread) ==>
                && (id in secrets ==>
                      Shown(file, id) == Shown(old(file), id).Or(Inherited(norm, old(file), id.kind, r.value)))
                && ShownAlike(old(file), file, secrets.Keys - {id})
    {
      hide Normalize, Shown, ShownAlike, Inherited, Unshowable;
      if Normalize(u, id.uri).None? {
        assert Others(u, secrets, id.kind, id.uri) == {};
        NothingInherited(norm, file, id);
        return Ok([]);
      }
      var superseded := Superseded(id);
      if superseded.Err? { return Err(Failed); }
      SpellingsAre(u, secrets, id, superseded.value);
      var passed := InheritDetails(id, superseded.value);
      if passed.Err? { return Err(Failed); }
      ghost var stored, inherited := secrets.Keys, file;
      r := DeleteSpellings(superseded.value, id);
      if r.Ok? && unread == old(unread) {
        AlikeToo(old(file), inherited, file, stored, secrets.Keys, id);
      }
    }

    /** The other stored spellings of a connection. */
    method Superseded(id: Id) returns (r: Result<seq<string>, Error>)
      requires Normalize(u, id.uri).Some?
      modifies `faults
      ensures faults >= old(faults) && (r.Err? ==> r.error == Failed && faults > old(faults))
      ensures r.Ok? ==> forall uri :: uri in r.value <==> Id(id.kind, uri) in Others(u, secrets, id.kind, id.uri)
      ensures r.Ok? ==> forall a, b :: 0 <= a < b < |r.value| ==> r.value[a] != r.value[b]
    {
      hide Normalize;
      var stored := ListStored(id.kind);
      if stored.Err? { return Err(Failed); }
      var superseded := [];
      for i := 0 to |stored.value|
        invariant forall uri :: uri in superseded <==>
                    uri in stored.value[..i] && Id(id.kind, uri) in Others(u, secrets, id.kind, id.uri)
        invariant forall a, b :: 0 <= a < b < |superseded| ==> superseded[a] != superseded[b]
      {
        var uri := stored.value[i];
        assert uri !in stored.value[..i];
        if uri != id.uri && Normalize(u, uri) == Normalize(u, id.uri) { superseded := superseded + [uri]; }
      }
      assert stored.value[..|stored.value|] == stored.value;
      return Ok(superseded);
    }

    method DeleteSpellings(superseded: seq<string>, id: Id) returns (r: Result<seq<string>, Error>)
      requires forall uri :: uri in superseded <==> Id(id.kind, uri) in Others(u, secrets, id.kind, id.uri)
      requires forall a, b :: 0 <= a < b < |superseded| ==> superseded[a] != superseded[b]
      modifies `secrets, `trace, `misses, `file, `unread, `faults
      ensures faults >= old(faults) && (r.Err? ==> r.error == Failed && faults > old(faults))
      ensures misses == old(misses) && old(trace) <= trace
      ensures LessSome(old(secrets), secrets, Others(u, old(secrets), id.kind, id.uri))
      ensures forall i :: |old(trace)| <= i < |trace| ==>
                LessSome(old(secrets), trace[i], Others(u, old(secrets), id.kind, id.uri))
      ensures r.Ok? ==> r.value == superseded && secrets == old(secrets) - Others(u, old(secrets), id.kind, id.uri)
      ensures unread >= old(unread)
      ensures unread == old(unread) ==> ShownAlike(old(file), file, secrets.Keys)
    {
      hide Shown, ShownAlike, OfStored, LessSome;
      ghost var before, others := secrets, Others(u, secrets, id.kind, id.uri);
      SpellingsAre(u, secrets, id, superseded);
      hide Others;
      AlikeAtFirst(file, secrets.Keys);
      GoneAreOthers(id.kind, superseded, 0, others);
      LessGone(before, {}, others);
      assert before - {} == before;
      for i := 0 to |superseded|
        invariant misses == old(misses) && old(trace) <= trace && unread >= old(unread) && faults >= old(faults)
        invariant secrets == before - Ids(id.kind, superseded[..i]) && LessSome(before, secrets, others)
        invariant forall i :: |old(trace)| <= i < |trace| ==> LessSome(before, trace[i], others)
        invariant unread == old(unread) ==> ShownAlike(old(file), file, secrets.Keys)
      {
        ghost var shown, stored := file, secrets.Keys;
        NextSpelling(before, id.kind, superseded, i, others);
        var deleted := DeleteSpelling(Id(id.kind, superseded[i]));
        if unread == old(unread) { AlikeInTurn(old(file), shown, file, stored, secrets.Keys); }
        if deleted.Err? { return Err(Failed); }
      }
      AllDeleted(others, superseded, id.kind);
      return Ok(superseded);
    }

    method DeleteSpelling(spelling: Id) returns (r: Result<(), Error>)
      requires spelling in secrets
      modifies `secrets, `trace, `misses, `file, `unread, `faults
      ensures r.Ok? ==> secrets == old(secrets) - {spelling}
      ensures faults >= old(faults) && (r.Err? ==> r.error == Failed && faults > old(faults))
      ensures trace == old(trace) + [secrets] && misses == old(misses)
      ensures secrets in {old(secrets), old(secrets) - {spelling}}
      ensures unread >= old(unread)
      ensures unread == old(unread) ==> ShownAlike(old(file), file, secrets.Keys)
    {
      hide OfStored, Shown, ShownAlike;
      r := DeleteConnection(spelling);
      if unread == old(unread) {
        if file == old(file) {
          AlikeAtFirst(file, secrets.Keys);
        } else {
          ForgettingShows(old(file), file, secrets.Keys, spelling);
        }
      }
    }

    /** Stores a connection under its one key: what `db.add_connection` and the move have in common. */
    method Configure(target: Id, password: string, changes: Changes) returns (r: Result<seq<string>, Error>)
      requires SteadyNormalizer(norm)
      modifies `secrets, `trace, `misses, `file, `unread, `faults
      ensures r == Err(Refused) <==> Settled(norm, changes).None? || keyBytes(target) > 256
      ensures faults >= old(faults)
      ensures r == Err(Failed) && unread == old(unread) ==>
                || faults > old(faults)
                || Unshowable(norm, old(file), Others(u, old(secrets), target.kind, target.uri))
      ensures r == Err(Refused) ==> secrets == old(secrets) && trace == old(trace) && file == old(file)
      ensures misses == old(misses) && old(trace) <= trace
      ensures OnTheWay(u, old(secrets), secrets, target, password, {})
      ensures forall i :: |old(trace)| <= i < |trace| ==> OnTheWay(u, old(secrets), trace[i], target, password, {})
      ensures r.Ok? ==> secrets == Configured(u, old(secrets), target, password)
      ensures r.Ok? ==> forall uri :: uri in r.value <==>
                Id(target.kind, uri) in Others(u, old(secrets), target.kind, target.uri)
      ensures r.Ok? ==> Settled(norm, changes).Some?
      ensures unread >= old(unread)
      ensures r.Ok? && unread == old(unread) ==>
                && Shown(file, target)
                   == Changed(Shown(old(file), target), Settled(norm, changes).value)
                      .Or(Inherited(norm, old(file), target.kind, r.value))
                && ShownAlike(old(file), file, secrets.Keys - {target})
    {
      hide Normalize, Same, Settled, Shown, ShownAlike, WithDetails, Inherited, SteadyNormalizer, Unshowable;
      OthersWithTarget(u, secrets, target, password);
      ghost var others := Others(u, secrets, target.kind, target.uri);
      var stored := StoreConnection(target, password, changes);
      if stored.Err? { return Err(stored.error); }
      assert Others(u, secrets, target.kind, target.uri) == others && target !in others;
      ghost var between, ids := file, secrets.Keys;
      OthersAreOfItsKind(u, secrets, target);
      hide Others;
      r := DropSupersededSpellings(target);
      if r.Err? && unread == old(unread) && faults == old(faults) {
        ChangeShows(old(file), ids, target, Settled(norm, changes).value);
        UnshowableAlike(norm, old(file), between, ids - {target}, others);
      }
      if r.Ok? && unread == old(unread) {
        ChangeShows(old(file), ids, target, Settled(norm, changes).value);
        ConfiguringShows(norm, old(file), between, file, ids, secrets.Keys, target, r.value);
      }
    }

    /** `db.add_connection`. */
    method Add(uri: string, password: string, kind: Kind, changes: Changes, verify: bool)
      returns (r: Result<string, Error>, ghost superseded: seq<string>)
      requires RoundTrips(u) && SteadyNormalizer(norm)
      modifies `secrets, `trace, `misses, `file, `unread, `faults
      ensures var refused :=
                || Settled(norm, changes).None?
                || (Said(u, uri).Some? && Said(u, uri).value.password !in {None, Some("")})
                || Normalize(u, uri).None? || keyBytes(Id(kind, Normalize(u, uri).value)) > 256;
              && (refused ==> r == Err(Refused)) && (r == Err(Refused) ==> refused || verify)
      ensures faults >= old(faults)
      ensures r == Err(Failed) && unread == old(unread) ==>
                || faults > old(faults)
                || Unshowable(norm, old(file), Others(u, old(secrets), kind, Normalize(u, uri).value))
      ensures r == Err(Refused) ==> secrets == old(secrets) && trace == old(trace) && file == old(file)
      ensures misses == old(misses) && old(trace) <= trace
      ensures forall i :: |old(trace)| <= i < |trace| ==>
                Normalize(u, uri).Some?
                && OnTheWay(u, old(secrets), trace[i], Id(kind, Normalize(u, uri).value), password, {})
      ensures r.Ok? ==> Normalize(u, uri) == Some(r.value) && Same(u, uri, r.value)
      ensures r.Ok? ==> secrets == Configured(u, old(secrets), Id(kind, r.value), password)
      ensures r.Ok? ==> Id(kind, r.value) in secrets && Unambiguous(u, secrets, kind, r.value)
      ensures r.Ok? ==> Settled(norm, changes).Some?
      ensures forall i, id :: |old(trace)| <= i < |trace| && id in old(secrets) && OtherPort(u, id.uri, uri) ==>
                id in trace[i] && trace[i][id] == old(secrets)[id]
      ensures r.Ok? ==> forall s :: s in superseded <==> Id(kind, s) in Others(u, old(secrets), kind, r.value)
      ensures r.Ok? && unread == old(unread) ==>
                var target := Id(kind, r.value);
                && Shown(file, target)
                   == Changed(Shown(old(file), target), Settled(norm, changes).value)
                      .Or(Inherited(norm, old(file), kind, superseded))
                && ShownAlike(old(file), file, secrets.Keys - {target})
    {
      hide Normalize, OnTheWay, Configured, Unambiguous, Settled, Shown, ShownAlike, Inherited, SteadyNormalizer,
          Others, Said, Unshowable;
      superseded := [];
      SaidIsParsed(u, uri);
      UnreadHasNoForm(u, uri);
      var settled := Settled(norm, changes);
      if settled.None? { return Err(Refused), superseded; }
      var parsed := ParseConnectionUri(u, uri);
      if parsed.Some? && parsed.value.password.Some? && parsed.value.password.value != "" {
        return Err(Refused), superseded;
      }
      var normalized := Normalize(u, uri);
      if normalized.None? { return Err(Refused), superseded; }
      var target := Id(kind, normalized.value);
      if keyBytes(target) > MAX_CONNECTION_KEY_BYTES { return Err(Refused), superseded; }
      if verify {
        var opens: bool := *;
        if !opens { return Err(Refused), superseded; }
      }
      SettledOnce(norm, changes);
      var configured := Configure(target, password, settled.value);
      forall i, id | |old(trace)| <= i < |trace| && id in old(secrets) && OtherPort(u, id.uri, uri)
        ensures id in trace[i] && trace[i][id] == old(secrets)[id]
      {
        OtherPortStays(u, old(secrets), trace[i], uri, target, password, id);
      }
      if configured.Err? { return Err(configured.error), superseded; }
      superseded := configured.value;
      NormalizeIsIdempotent(u, uri);
      ConfiguredIsUnambiguous(u, old(secrets), target, password, {});
      assert secrets - {} == secrets;
      return Ok(normalized.value), superseded;
    }

    /** Re-keys a connection, its details with it: the new key is written before the old one goes. */
    method Move(from: Id, target: Id, password: string, details: Details)
      returns (r: Result<(), Error>, ghost superseded: seq<string>)
      requires from in secrets && from != target && SteadyNormalizer(norm)
      modifies `secrets, `trace, `misses, `file, `unread, `faults
      ensures r == Err(Refused) ==> Normalized(norm, details).None? || keyBytes(target) > 256
      ensures faults >= old(faults)
      ensures r == Err(Failed) && unread == old(unread) ==>
                || faults > old(faults)
                || Unshowable(norm, old(file), Others(u, old(secrets), target.kind, target.uri))
      ensures r == Err(Refused) ==> secrets == old(secrets) && trace == old(trace) && file == old(file)
      ensures misses == old(misses) && old(trace) <= trace
      ensures forall i :: |old(trace)| <= i < |trace| ==> OnTheWay(u, old(secrets), trace[i], target, password, {from})
      ensures r.Ok? ==> secrets == Configured(u, old(secrets), target, password) - {from}
      ensures r.Ok? ==> forall s :: s in superseded <==>
                Id(target.kind, s) in Others(u, old(secrets), target.kind, target.uri)
      ensures r.Ok? ==> Normalized(norm, details).Some?
      ensures unread >= old(unread)
      ensures r.Ok? && unread == old(unread) ==>
                && Shown(file, target)
                   == Normalized(norm, details).value.Or(Inherited(norm, old(file), target.kind, superseded))
                && ShownAlike(old(file), file, secrets.Keys - {target})
    {
      hide Same, Normalize, Others, Settled, Shown, ShownAlike, Inherited, Normalized, SteadyNormalizer, Unshowable;
      ghost var before, shown := secrets, Shown(file, target);
      superseded := [];
      AllOfThem(norm, details, shown);
      var configured := Configure(target, password, All(details));
      forall i | |old(trace)| <= i < |trace| ensures OnTheWay(u, before, trace[i], target, password, {from}) {
      }
      if configured.Err? { return Err(configured.error), superseded; }
      superseded := configured.value;
      ghost var between, ids := file, secrets.Keys;
      assert target in ids by { ConfiguredHasTarget(u, before, target, password); }
      if target.kind != from.kind || from.uri !in configured.value {
        OthersAreOfItsKind(u, before, target);
        assert from == Id(from.kind, from.uri) && from in secrets;
        var deleted := DeleteSpelling(from);
        ConfiguredIsOnTheWay(u, before, secrets, target, password, from);
        if deleted.Err? { return Err(Failed), superseded; }
        if unread == old(unread) { AlikeToo(old(file), between, file, ids, secrets.Keys, target); }
      } else {
        assert from == Id(target.kind, from.uri) && from !in secrets;
      }
      return Ok(()), superseded;
    }

    /** A move that keeps the password where none is given. */
    method Rekey(from: Id, target: Id, password: Option<string>, details: Details)
      returns (r: Result<(), Error>, ghost superseded: seq<string>)
      requires from in secrets && from != target && SteadyNormalizer(norm)
      modifies `secrets, `trace, `misses, `file, `unread, `faults
      ensures r == Err(Refused) ==> Normalized(norm, details).None? || keyBytes(target) > 256
      ensures faults >= old(faults)
      ensures r == Err(Failed) && unread == old(unread) ==>
                || faults > old(faults)
                || Unshowable(norm, old(file), Others(u, old(secrets), target.kind, target.uri))
      ensures r == Err(Refused) ==> secrets == old(secrets) && trace == old(trace) && file == old(file)
      ensures misses == old(misses) && old(trace) <= trace
      ensures var kept := if password.None? then old(secrets)[from] else password.value;
              && (forall i :: |old(trace)| <= i < |trace| ==> OnTheWay(u, old(secrets), trace[i], target, kept, {from}))
              && (r.Ok? ==> secrets == Configured(u, old(secrets), target, kept) - {from})
      ensures r.Ok? ==>
                && target in secrets && Unambiguous(u, secrets, target.kind, target.uri)
                && forall s :: s in superseded <==>
                     Id(target.kind, s) in Others(u, old(secrets), target.kind, target.uri)
      ensures r.Ok? ==> Normalized(norm, details).Some?
      ensures unread >= old(unread)
      ensures r.Ok? && unread == old(unread) ==>
                && Shown(file, target)
                   == Normalized(norm, details).value.Or(Inherited(norm, old(file), target.kind, superseded))
                && ShownAlike(old(file), file, secrets.Keys - {target})
    {
      hide Normalize, Configured, Unambiguous, Resolves, Others, Same, OnTheWay;
      hide Settled, Shown, ShownAlike, Inherited, Normalized, SteadyNormalizer, Unshowable;
      superseded := [];
      var kept: string;
      if password.Some? {
        kept := password.value;
      } else {
        var read := ReadPassword(from);
        if read.Err? { return Err(Failed), superseded; }
        kept := read.value;
      }
      r, superseded := Move(from, target, kept, details);
      if r.Ok? { ConfiguredIsUnambiguous(u, old(secrets), target, kept, {from}); }
    }

    /** `db.update_connection`, the password and the details kept where none are given. */
    method Update(uri: string, newUri: Option<string>, kind: Kind, newKind: Option<Kind>, password: Option<string>,
                  changes: Changes)
      returns (r: Result<string, Error>, ghost configured: string, ghost superseded: seq<string>)
      requires RoundTrips(u) && SteadyNormalizer(norm)
      modifies `secrets, `trace, `misses, `file, `unread, `faults
      ensures r == Err(Refused) ==> secrets == old(secrets) && trace == old(trace) && file == old(file)
      ensures Settled(norm, changes).None? ==> r == Err(Refused)
      ensures r == Err(Refused) && unread == old(unread) ==>
                || Settled(norm, changes).None?
                || Resolves(u, old(secrets), kind, uri, Ok(None)) || Resolves(u, old(secrets), kind, uri, Err(Refused))
                || (newUri.Some? && Normalize(u, newUri.value).None?)
                || (newUri.Some? && Said(u, newUri.value).Some?
                    && Said(u, newUri.value).value.password !in {None, Some("")})
                || keyBytes(Id(if newKind.None? then kind else newKind.value,
                               if newUri.None? then configured else Normalize(u, newUri.value).value)) > 256
                || Normalized(norm, Changed(Shown(old(file), Id(kind, configured)), Settled(norm, changes).value)).None?
      ensures faults >= old(faults)
      ensures r == Err(Failed) && unread == old(unread) ==>
                || faults > old(faults)
                || exists target: Id :: Unshowable(norm, old(file), Others(u, old(secrets), target.kind, target.uri))
      ensures misses == old(misses) && old(trace) <= trace
      ensures r.Ok? ==>
                Id(kind, configured) in old(secrets) && Resolves(u, old(secrets), kind, uri, Ok(Some(configured)))
      ensures r.Ok? ==> if newUri.None? then r.value == configured else Normalize(u, newUri.value) == Some(r.value)
      ensures r.Ok? ==> Settled(norm, changes).Some?
      ensures Id(kind, configured) in old(secrets) && (newUri.None? || Normalize(u, newUri.value).Some?) ==>
                var from := Id(kind, configured);
                var target := Id(if newKind.None? then kind else newKind.value,
                                 if newUri.None? then configured else Normalize(u, newUri.value).value);
                var kept := if password.None? then old(secrets)[from] else password.value;
                && (forall i :: |old(trace)| <= i < |trace| ==>
                    OnTheWay(u, old(secrets), trace[i], target, kept, {from}))
                && (r.Ok? && target == from ==>
                      secrets == old(secrets)[from := kept]
                      && (Unambiguous(u, secrets, kind, configured)
                          <==> Others(u, old(secrets), kind, configured) == {}))
                && (r.Ok? && target != from ==>
                      secrets == Configured(u, old(secrets), target, kept) - {from}
                      && target in secrets && Unambiguous(u, secrets, target.kind, target.uri)
                      && forall s :: s in superseded <==>
                           Id(target.kind, s) in Others(u, old(secrets), target.kind, target.uri))
                && (r.Ok? && unread == old(unread) ==>
                      ShownAlike(old(file), file, secrets.Keys - {target})
                      && Settled(norm, changes).Some?
                      && var asked := Changed(Shown(old(file), from), Settled(norm, changes).value);
                         if target == from then Shown(file, target) == asked
                         else Normalized(norm, asked).Some?
                              && Shown(file, target)
                                 == Normalized(norm, asked).value
                                    .Or(Inherited(norm, old(file), target.kind, superseded)))
      ensures Id(kind, configured) !in old(secrets) || !(newUri.None? || Normalize(u, newUri.value).Some?) ==>
                secrets == old(secrets) && trace == old(trace) && file == old(file)
    {
      hide Normalize, Configured, Unambiguous, Resolves, Others, Same, OnTheWay;
      hide Settled, Shown, ShownAlike, Inherited, Normalized, Changed, SteadyNormalizer, Unshowable, Said;
      configured, superseded := "", [];
      if newUri.Some? { SaidIsParsed(u, newUri.value); }
      var targetKind := if newKind.None? then kind else newKind.value;
      var settled := Settled(norm, changes);
      if settled.None? { return Err(Refused), configured, superseded; }
      var found := Resolve(uri, kind);
      if found.Err? { return Err(found.error), configured, superseded; }
      if found.value.None? { return Err(Refused), configured, superseded; }
      configured := found.value.value;
      var from := Id(kind, found.value.value);
      assert from in secrets by { ResolvedIsStored(u, secrets, kind, uri, configured); }
      var target := Id(targetKind, found.value.value);
      if newUri.Some? {
        var parsed := ParseConnectionUri(u, newUri.value);
        if parsed.Some? && parsed.value.password.Some? && parsed.value.password.value != "" {
          return Err(Refused), configured, superseded;
        }
        var normalized := Normalize(u, newUri.value);
        if normalized.None? { return Err(Refused), configured, superseded; }
        target := Id(targetKind, normalized.value);
      }
      var read := ReadFile();
      var current := Shown(read, from);
      var asked := Changed(current, settled.value);
      if target == from {
        SettledOnce(norm, changes);
        r := UpdateInPlace(from, password, current, settled.value);
        return r, configured, superseded;
      }
      var moved;
      moved, superseded := Rekey(from, target, password, asked);
      if moved.Err? { return Err(moved.error), configured, superseded; }
      return Ok(target.uri), configured, superseded;
    }

    /** Neither the URI nor the list changes: other spellings of the connection stay. */
    method UpdateInPlace(id: Id, password: Option<string>, current: Details, changes: Changes)
      returns (r: Result<string, Error>)
      requires id in secrets && SteadyNormalizer(norm)
      modifies `secrets, `trace, `file, `unread, `faults
      ensures r == Err(Refused) ==> Settled(norm, changes).None? || (password.Some? && keyBytes(id) > 256)
      ensures faults >= old(faults)
      ensures r == Err(Failed) ==> faults > old(faults) || Settled(norm, changes).None?
      ensures r == Err(Refused) && Settled(norm, changes).Some? ==>
                secrets == old(secrets) && trace == old(trace) && file == old(file)
      ensures old(trace) <= trace
      ensures var kept := if password.None? then old(secrets)[id] else password.value;
              && (forall i :: |old(trace)| <= i < |trace| ==> OnTheWay(u, old(secrets), trace[i], id, kept, {id}))
              && (r.Ok? ==> r.value == id.uri && secrets == old(secrets)[id := kept])
      ensures r.Ok? ==> (Unambiguous(u, secrets, id.kind, id.uri) <==> Others(u, old(secrets), id.kind, id.uri) == {})
      ensures unread >= old(unread)
      ensures r.Ok? && unread == old(unread) && current == Shown(old(file), id)
              && Settled(norm, changes) == Some(changes) ==>
                Shown(file, id) == Changed(current, changes) && ShownAlike(old(file), file, secrets.Keys - {id})
    {
      hide Normalize, Same, Unambiguous, Shown, ShownAlike, Settled, Changed, WithDetails, SteadyNormalizer;
      if password.Some? {
        OthersWithTarget(u, secrets, id, password.value);
        var stored := StoreConnection(id, password.value, Changes(None, None, None));
        NothingToSettle(norm);
        if stored.Err? { return Err(stored.error); }
        NothingToShow(old(file), secrets.Keys, id);
      }
      assert secrets.Keys == old(secrets).Keys;
      AlikeAtFirst(old(file), secrets.Keys - {id});
      if Changed(current, changes) != current {
        var changed := SetDetails(id, changes);
        assert changed.Err? ==> changed == Err(if changed.error.Failed? then Failed else Refused);
        if changed.Err? { return Err(if password.Some? then Failed else changed.error); }
        ChangeShows(old(file), secrets.Keys, id, changes);
      }
      UnambiguousExactlyWithoutOthers(u, secrets, id.kind, id.uri);
      return Ok(id.uri);
    }
  }

  lemma UnreadHasNoForm(u: UriShell, uri: string)
    ensures Normalize(u, uri).Some? ==> Said(u, uri).Some?
  {
    hide Tidied, LowerScheme;
  }

  /** Storing a connection leaves those on other ports alone. */
  lemma OtherPortStays(u: UriShell, before: Secrets, now: Secrets, uri: string, target: Id, password: string, id: Id)
    requires RoundTrips(u) && Normalize(u, uri) == Some(target.uri)
    requires OnTheWay(u, before, now, target, password, {}) && id in before && OtherPort(u, id.uri, uri)
    ensures id in now && now[id] == before[id]
  {
    hide RoundTrips, OtherPort, Normalize;
    NormalizeIsIdempotent(u, uri);
    OtherPortsNeverFold(u, id.uri, uri);
    assert !Same(u, id.uri, target.uri);
    if id == target { OtherPortIsNotTarget(u, uri, target.uri); }
  }

  lemma OtherPortIsNotTarget(u: UriShell, uri: string, normal: string)
    requires RoundTrips(u) && Normalize(u, uri) == Some(normal)
    ensures !OtherPort(u, normal, uri)
  {
    hide Normalize, Said;
    NormalizeIsIdempotent(u, uri);
    if OtherPort(u, normal, uri) { OtherPortsNeverFold(u, normal, uri); }
  }

  /** The connections of some URIs. */
  ghost function Ids(kind: Kind, uris: seq<string>): set<Id> {
    set uri | uri in uris :: Id(kind, uri)
  }

  lemma SpellingsAre(u: UriShell, secrets: Secrets, id: Id, superseded: seq<string>)
    requires forall uri :: uri in superseded <==> Id(id.kind, uri) in Others(u, secrets, id.kind, id.uri)
    ensures Ids(id.kind, superseded) == Others(u, secrets, id.kind, id.uri)
    ensures Others(u, secrets, id.kind, id.uri) <= secrets.Keys
  {
    hide Same;
    forall o | o in Others(u, secrets, id.kind, id.uri) ensures o in Ids(id.kind, superseded) {
      assert o == Id(id.kind, o.uri);
    }
  }

  lemma GoneAreOthers(kind: Kind, superseded: seq<string>, i: nat, others: set<Id>)
    requires i <= |superseded| && Ids(kind, superseded) == others
    ensures Ids(kind, superseded[..i]) <= others && (i == 0 ==> Ids(kind, superseded[..i]) == {})
  {
  }

  lemma LessGone(before: Secrets, gone: set<Id>, others: set<Id>)
    requires gone <= others
    ensures LessSome(before, before - gone, others)
  {
  }

  /** The next spelling is still stored, and without it one more is gone. */
  lemma NextSpelling(before: Secrets, kind: Kind, superseded: seq<string>, i: nat, others: set<Id>)
    requires i < |superseded| && Ids(kind, superseded) == others && others <= before.Keys
    requires forall a, b :: 0 <= a < b < |superseded| ==> superseded[a] != superseded[b]
    ensures var gone, spelling := Ids(kind, superseded[..i]), Id(kind, superseded[i]);
            && spelling in before - gone
            && before - gone - {spelling} == before - Ids(kind, superseded[..i + 1])
            && LessSome(before, before - gone - {spelling}, others)
  {
    hide LessSome;
    var gone, spelling := Ids(kind, superseded[..i]), Id(kind, superseded[i]);
    GoneAreOthers(kind, superseded, i, others);
    GoneAreOthers(kind, superseded, i + 1, others);
    assert superseded[..i + 1] == superseded[..i] + [superseded[i]];
    assert superseded[i] !in superseded[..i];
    OneMoreGone(kind, superseded[..i], superseded[i]);
    hide Ids;
    assert before - gone - {spelling} == before - (gone + {spelling});
    LessGone(before, gone + {spelling}, others);
    assert spelling in others by { SpellingIsOther(kind, superseded, i); }
  }

  lemma SpellingIsOther(kind: Kind, superseded: seq<string>, i: nat)
    requires i < |superseded|
    ensures Id(kind, superseded[i]) in Ids(kind, superseded)
  {
    assert superseded[i] in superseded;
  }

  lemma OneMoreGone(kind: Kind, uris: seq<string>, uri: string)
    ensures Ids(kind, uris + [uri]) == Ids(kind, uris) + {Id(kind, uri)}
    ensures uri !in uris ==> Id(kind, uri) !in Ids(kind, uris)
  {
  }

  lemma AllDeleted(others: set<Id>, superseded: seq<string>, kind: Kind)
    requires Ids(kind, superseded) == others
    ensures Ids(kind, superseded[..|superseded|]) == others
  {
    assert superseded[..|superseded|] == superseded;
  }

  lemma ConfiguredHasTarget(u: UriShell, secrets: Secrets, target: Id, password: string)
    ensures target in Configured(u, secrets, target, password)
  {
    hide Same;
  }

  lemma OthersAreOfItsKind(u: UriShell, secrets: Secrets, target: Id)
    ensures forall id :: id in Others(u, secrets, target.kind, target.uri) ==> id.kind == target.kind && id != target
  {
  }

  lemma ConfiguredIsOnTheWay(u: UriShell, before: Secrets, now: Secrets, target: Id, password: string, from: Id)
    requires from != target
    requires now in {Configured(u, before, target, password), Configured(u, before, target, password) - {from}}
    ensures OnTheWay(u, before, now, target, password, {from})
  {
    hide Same;
  }

  lemma ResolvedIsStored(u: UriShell, secrets: Secrets, kind: Kind, uri: string, configured: string)
    requires Resolves(u, secrets, kind, uri, Ok(Some(configured)))
    ensures Id(kind, configured) in secrets
  {
  }

  /** On the way, the password is under the old key or the new one, and whatever is neither another
      spelling of the target nor moved keeps its own. */
  lemma PasswordIsNeverNowhere(u: UriShell, before: Secrets, now: Secrets, from: Id, target: Id, password: string)
    requires OnTheWay(u, before, now, target, password, {from}) && from in before
    ensures (from in now && now[from] == before[from]) || (target in now && now[target] == password)
    ensures forall id :: id in before && id != from && id != target
                         && !(id.kind == target.kind && Same(u, id.uri, target.uri)) ==>
              id in now && now[id] == before[id]
    ensures forall id :: id in now && id != target ==> id in before
  {
    hide Same;
  }
}
