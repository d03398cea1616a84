/**
 The upgrade of the connection keys (`upgrade_connection_keys`).

 The shell's secrets and the folders kept in connections.json are a Disk. Every single step on it may
 fail, and a store or delete that fails may have happened all the same; the trace holds the disk
 after every step, which is what an interruption at that point leaves.
 */
module KeyUpgrade {
  import opened Wrappers

  datatype Kind = Mcp | Gui

  datatype Id = Id(kind: Kind, uri: string)

  datatype Disk = Disk(secrets: map<string, string>, folders: map<Id, string>)

  function Prefix(kind: Kind): string {
    if kind.Mcp? then "MCP:CONN:" else "GUI:CONN:"
  }

  function LegacyPrefix(kind: Kind): string {
    if kind.Mcp? then "MCP:Connection:" else "GUI:Connection:"
  }

  // --- Keys ------------------------------------------------------------------------------------------

  function FirstColon(s: string): (i: nat)
    ensures i <= |s| && (i < |s| ==> s[i] == ':') && forall j :: 0 <= j < i ==> s[j] != ':'
  {
    if s == [] || s[0] == ':' then 0 else 1 + FirstColon(s[1..])
  }

  datatype Suffix = Suffix(uri: string, path: string)

  /** A key's suffix may carry a folder: /path:uri. */
  function SplitFolderKey(suffix: string): Suffix {
    var colon := FirstColon(suffix);
    if "/" <= suffix && 0 < colon < |suffix| then Suffix(suffix[colon + 1..], suffix[..colon])
    else Suffix(suffix, "")
  }

  function NewKey(id: Id): string {
    Prefix(id.kind) + id.uri
  }

  datatype Entry = Entry(id: Id, path: string)

  function EntryUnder(kind: Kind, prefix: string, key: string): Entry
    requires prefix <= key
  {
    var suffix := SplitFolderKey(key[|prefix|..]);
    Entry(Id(kind, suffix.uri), suffix.path)
  }

  /** The connection a key in any format holds the password of. */
  function EntryOf(key: string): Option<Entry> {
    if Prefix(Mcp) <= key then Some(EntryUnder(Mcp, Prefix(Mcp), key))
    else if LegacyPrefix(Mcp) <= key then Some(EntryUnder(Mcp, LegacyPrefix(Mcp), key))
    else if Prefix(Gui) <= key then Some(EntryUnder(Gui, Prefix(Gui), key))
    else if LegacyPrefix(Gui) <= key then Some(EntryUnder(Gui, LegacyPrefix(Gui), key))
    else None
  }

  /** A key in an earlier format. */
  predicate Outdated(key: string) {
    EntryOf(key).Some? && NewKey(EntryOf(key).value.id) != key
  }

  predicate Holds(key: string, id: Id) {
    EntryOf(key).Some? && EntryOf(key).value.id == id
  }

  ghost predicate HasPassword(secrets: map<string, string>, id: Id) {
    exists key :: key in secrets && Holds(key, id)
  }

  /** No URI begins with a slash. */
  ghost predicate Plain(secrets: map<string, string>) {
    forall key :: key in secrets && EntryOf(key).Some? ==> !("/" <= EntryOf(key).value.id.uri)
  }

  lemma EntryOfPrefixed(kind: Kind, prefix: string, key: string)
    requires (prefix == Prefix(kind) || prefix == LegacyPrefix(kind)) && prefix <= key
    ensures EntryOf(key) == Some(EntryUnder(kind, prefix, key))
  {
    hide SplitFolderKey;
    assert key[0] == prefix[0] && key[5] == prefix[5];
  }

  /** A key in the current format is its own connection's. */
  lemma NewKeyIsCurrent(id: Id)
    requires !("/" <= id.uri)
    ensures EntryOf(NewKey(id)) == Some(Entry(id, "")) && !Outdated(NewKey(id))
  {
    EntryOfPrefixed(id.kind, Prefix(id.kind), NewKey(id));
    assert NewKey(id)[|Prefix(id.kind)|..] == id.uri;
  }

  // --- What a run does ---------------------------------------------------------------------------------

  datatype Move = Move(key: string, id: Id, path: string)

  function MovesUnder(kind: Kind, prefix: string, keys: seq<string>): seq<Move> {
    if keys == [] then []
    else
      var key := keys[|keys| - 1];
      MovesUnder(kind, prefix, keys[..|keys| - 1]) + MoveOf(kind, prefix, key)
  }

  function MoveOf(kind: Kind, prefix: string, key: string): seq<Move> {
    if prefix <= key then
      var entry := EntryUnder(kind, prefix, key);
      if NewKey(entry.id) == key then [] else [Move(key, entry.id, entry.path)]
    else []
  }

  /** Both kinds, the legacy prefix of each first. */
  function Groups(): seq<(Kind, string)> {
    [(Mcp, LegacyPrefix(Mcp)), (Mcp, Prefix(Mcp)), (Gui, LegacyPrefix(Gui)), (Gui, Prefix(Gui))]
  }

  function MovesOf(groups: seq<(Kind, string)>, keys: seq<string>): seq<Move> {
    if groups == [] then []
    else
      var group := groups[|groups| - 1];
      MovesOf(groups[..|groups| - 1], keys) + MovesUnder(group.0, group.1, keys)
  }

  function Moves(keys: seq<string>): seq<Move> {
    MovesOf(Groups(), keys)
  }

  function Copied(secrets: map<string, string>, moves: seq<Move>): map<string, string> {
    if moves == [] then secrets
    else
      var before, m := Copied(secrets, moves[..|moves| - 1]), moves[|moves| - 1];
      if NewKey(m.id) in before || m.key !in before then before else before[NewKey(m.id) := before[m.key]]
  }

  function Keys(moves: seq<Move>): seq<string> {
    if moves == [] then [] else Keys(moves[..|moves| - 1]) + [moves[|moves| - 1].key]
  }

  function Without(secrets: map<string, string>, keys: seq<string>): map<string, string> {
    map key | key in secrets && key !in keys :: secrets[key]
  }

  /** The moves that have a folder to file. */
  function WithPaths(moves: seq<Move>): seq<Move> {
    if moves == [] then []
    else WithPaths(moves[..|moves| - 1]) + if moves[|moves| - 1].path == "" then [] else [moves[|moves| - 1]]
  }

  function WithFolders(folders: map<Id, string>, moves: seq<Move>): map<Id, string> {
    if moves == [] then folders
    else
      var before, m := WithFolders(folders, moves[..|moves| - 1]), moves[|moves| - 1];
      if m.path == "" || m.id in before then before else before[m.id := m.path]
  }

  /** What a run without a failure leaves of the secrets. */
  function Upgraded(secrets: map<string, string>, keys: seq<string>): map<string, string> {
    Without(Copied(secrets, Moves(keys)), Keys(Moves(keys)))
  }

  // --- What every step keeps ----------------------------------------------------------------------

  /** A password some key of the same connection held before. */
  ghost predicate CameFrom(before: map<string, string>, key: string, password: string) {
    exists other :: other in before && EntryOf(other).Some? && NewKey(EntryOf(other).value.id) == key
                    && before[other] == password
  }

  ghost predicate NothingMadeUp(before: map<string, string>, now: map<string, string>) {
    forall key :: key in now ==> (key in before && now[key] == before[key]) || CameFrom(before, key, now[key])
  }

  /** Every connection that had a password has one that was its own. */
  ghost predicate Kept(before: map<string, string>, now: map<string, string>) {
    && (forall id :: HasPassword(before, id) ==> HasPassword(now, id))
    && NothingMadeUp(before, now)
  }

  ghost predicate Grown(before: map<string, string>, now: map<string, string>) {
    && (forall key :: key in before ==> key in now && now[key] == before[key])
    && NothingMadeUp(before, now)
  }

  /** The old keys may go: each is outdated, and its new key is there. */
  ghost predicate Superseded(before: map<string, string>, now: map<string, string>, oldKeys: seq<string>) {
    forall key :: key in oldKeys ==> key in before && Outdated(key) && NewKey(EntryOf(key).value.id) in now
  }

  ghost predicate Shrunk(before: map<string, string>, now: map<string, string>, oldKeys: seq<string>) {
    && (forall key :: key in before ==> (key in now && now[key] == before[key]) || key in oldKeys)
    && Superseded(before, now, oldKeys)
    && NothingMadeUp(before, now)
  }

  lemma ShrunkIsKept(before: map<string, string>, now: map<string, string>, oldKeys: seq<string>)
    requires Plain(before) && Shrunk(before, now, oldKeys)
    ensures Kept(before, now)
  {
    hide EntryOf, NewKey, NothingMadeUp;
    forall id | HasPassword(before, id) ensures HasPassword(now, id) {
      var key :| key in before && Holds(key, id);
      if key !in now {
        NewKeyIsCurrent(id);
        assert Holds(NewKey(id), id);
      }
    }
  }

  lemma GrownIsShrunk(before: map<string, string>, now: map<string, string>)
    requires Grown(before, now)
    ensures Shrunk(before, now, [])
  {
  }

  lemma DeletingKeepsShrunk(before: map<string, string>, now: map<string, string>, oldKeys: seq<string>, key: string)
    requires Plain(before) && Shrunk(before, now, oldKeys) && key in oldKeys
    ensures Shrunk(before, now - {key}, oldKeys)
  {
    hide EntryOf, NewKey, CameFrom;
    forall other | other in oldKeys ensures NewKey(EntryOf(other).value.id) in now - {key} {
      NewKeyIsCurrent(EntryOf(other).value.id);
    }
  }

  lemma StoringKeepsGrown(before: map<string, string>, now: map<string, string>, id: Id, key: string)
    requires Grown(before, now) && key in before && Holds(key, id) && NewKey(id) !in before
    ensures Grown(before, now[NewKey(id) := before[key]])
  {
    hide EntryOf, NewKey;
    assert CameFrom(before, NewKey(id), before[key]);
  }

  // --- Folders --------------------------------------------------------------------------------------

  predicate KeyHasFolder(key: string, id: Id) {
    Holds(key, id) && EntryOf(key).value.path != ""
  }

  /** The file has a folder for a connection that is stored in the current format. */
  ghost predicate FiledFor(disk: Disk, id: Id) {
    id in disk.folders && NewKey(id) in disk.secrets && Holds(NewKey(id), id)
  }

  ghost predicate HasFolder(disk: Disk, id: Id) {
    FiledFor(disk, id) || exists key :: key in disk.secrets && KeyHasFolder(key, id)
  }

  ghost predicate FoldersKept(before: Disk, now: Disk) {
    forall id :: HasFolder(before, id) ==> HasFolder(now, id)
  }

  /** What every step leaves, as long as the folders are in their file before the first key goes. */
  ghost predicate Good(before: Disk, now: Disk) {
    Kept(before.secrets, now.secrets) && FoldersKept(before, now)
  }

  /** What the file had for stored connections is in it, and so are the folders of the keys that may go. */
  ghost predicate Filed(before: Disk, folders: map<Id, string>, oldKeys: seq<string>) {
    && (forall id :: id in before.folders && NewKey(id) in before.secrets ==> id in folders)
    && (forall key :: key in oldKeys && EntryOf(key).Some? && EntryOf(key).value.path != "" ==>
          EntryOf(key).value.id in folders)
  }

  lemma FiledKeepsFolders(before: Disk, now: Disk, oldKeys: seq<string>)
    requires Plain(before.secrets)
    requires Shrunk(before.secrets, now.secrets, oldKeys) && Filed(before, now.folders, oldKeys)
    ensures FoldersKept(before, now)
  {
    hide EntryOf, NothingMadeUp, NewKey;
    forall id | HasFolder(before, id) ensures HasFolder(now, id) {
      if FiledFor(before, id) {
        assert NewKey(id) in now.secrets;
      } else {
        var key :| key in before.secrets && KeyHasFolder(key, id);
        if key !in now.secrets { NewKeyIsCurrent(id); }
      }
    }
  }

  /** Two files have the same folders for what is stored. */
  ghost predicate FiledAlike(a: map<Id, string>, b: map<Id, string>, secrets: map<string, string>) {
    forall id :: NewKey(id) in secrets ==> (id in a <==> id in b) && (id in a ==> a[id] == b[id])
  }

  /** How the folders fared: they are in the file, it could not be written, or it could not be read and
      was written without what it held. */
  datatype Filing = InFile | Unwritten | Unread

  ghost predicate FiledAs(filing: Filing, folders: map<Id, string>, before: Disk, moves: seq<Move>,
                          secrets: map<string, string>) {
    match filing
    case InFile => FiledAlike(folders, WithFolders(before.folders, moves), secrets)
    case Unwritten => folders == before.folders
    case Unread => FiledAlike(folders, WithFolders(map[], moves), secrets)
  }

  function StoredOnly(folders: map<Id, string>, secrets: map<string, string>): map<Id, string> {
    map id | id in folders && NewKey(id) in secrets :: folders[id]
  }

  // --- The run --------------------------------------------------------------------------------------

  ghost predicate Lists(keys: seq<string>, secrets: map<string, string>) {
    && (forall key :: key in keys <==> key in secrets)
    && (forall i, j :: 0 <= i < j < |keys| ==> keys[i] != keys[j])
  }

  /** The local variables of a run. */
  datatype Progress = Progress(present: set<string>, oldKeys: seq<string>, folders: seq<Move>, failed: bool)

  ghost predicate IsMove(secrets: map<string, string>, m: Move) {
    m.key in secrets && EntryOf(m.key) == Some(Entry(m.id, m.path)) && Outdated(m.key)
  }

  ghost predicate Copying(before: map<string, string>, now: map<string, string>, p: Progress) {
    && Grown(before, now) && Superseded(before, now, p.oldKeys)
    && before.Keys <= p.present <= now.Keys
    && (forall key :: key in p.oldKeys && EntryOf(key).value.path != "" ==>
          exists m :: m in p.folders && m.id == EntryOf(key).value.id && m.path != "")
  }

  /** Nothing has failed: everything is as the moves done so far have it. */
  ghost predicate OnTrack(before: Disk, now: map<string, string>, p: Progress, done: seq<Move>) {
    && now == Copied(before.secrets, done) && p.present == now.Keys
    && p.oldKeys == Keys(done) && p.folders == WithPaths(done)
  }

  lemma Continue(before: Disk, done: seq<Move>, m: Move)
    ensures Keys(done + [m]) == Keys(done) + [m.key]
    ensures var now := Copied(before.secrets, done);
            Copied(before.secrets, done + [m])
            == if NewKey(m.id) in now || m.key !in now then now else now[NewKey(m.id) := now[m.key]]
    ensures WithPaths(done + [m]) == WithPaths(done) + if m.path == "" then [] else [m]
  {
    assert (done + [m])[..|done|] == done;
  }

  lemma MovesUnderStep(kind: Kind, prefix: string, keys: seq<string>, i: nat, done: seq<Move>)
    requires i < |keys|
    ensures done + MovesUnder(kind, prefix, keys[..i + 1])
            == (done + MovesUnder(kind, prefix, keys[..i])) + MoveOf(kind, prefix, keys[i])
    ensures (done + MovesUnder(kind, prefix, keys[..i])) + [] == done + MovesUnder(kind, prefix, keys[..i])
  {
    assert keys[..i + 1][..i] == keys[..i];
  }

  lemma {:induction false} WithFoldersHasAll(folders: map<Id, string>, moves: seq<Move>)
    ensures forall id :: id in folders ==> id in WithFolders(folders, moves)
    ensures forall m :: m in moves && m.path != "" ==> m.id in WithFolders(folders, moves)
  {
    if moves != [] { WithFoldersHasAll(folders, moves[..|moves| - 1]); }
  }

  lemma GrownWithFolders(before: Disk, now: Disk)
    requires Grown(before.secrets, now.secrets)
    requires forall id :: id in before.folders && NewKey(id) in before.secrets ==> id in now.folders
    ensures Good(before, now)
  {
    hide EntryOf, NothingMadeUp, NewKey;
  }

  lemma {:induction false} PathsFileAlike(folders: map<Id, string>, moves: seq<Move>)
    ensures WithFolders(folders, WithPaths(moves)) == WithFolders(folders, moves)
  {
    if moves != [] {
      var init, m := moves[..|moves| - 1], moves[|moves| - 1];
      PathsFileAlike(folders, init);
      if m.path != "" {
        assert (WithPaths(init) + [m])[..|WithPaths(init)|] == WithPaths(init);
      } else {
        assert WithPaths(moves) == WithPaths(init);
      }
    }
  }

  class Shell {
    var disk: Disk
    var upgraded: bool
    ghost var trace: seq<Disk>
    ghost var faults: nat

    constructor (disk: Disk)
      ensures this.disk == disk && !upgraded && trace == [] && faults == 0
    {
      this.disk := disk;
      upgraded, trace, faults := false, [], 0;
    }

    method ListSecrets() returns (keys: Option<seq<string>>)
      modifies `faults
      ensures keys.Some? ==> Lists(keys.value, disk.secrets) && faults == old(faults)
      ensures keys.None? ==> faults == old(faults) + 1
    {
      var works: bool := *;
      if !works {
        faults := faults + 1;
        return None;
      }
      var listed: seq<string>, rest := [], disk.secrets.Keys;
      while rest != {}
        invariant forall key :: key in disk.secrets <==> key in listed || key in rest
        invariant forall key :: key in listed ==> key !in rest
        invariant forall i, j :: 0 <= i < j < |listed| ==> listed[i] != listed[j]
        decreases |rest|
      {
        var key :| key in rest;
        listed, rest := listed + [key], rest - {key};
      }
      return Some(listed);
    }

    method ReadSecret(key: string) returns (password: Option<string>)
      modifies `faults
      ensures password.Some? ==> key in disk.secrets && password.value == disk.secrets[key] && faults == old(faults)
      ensures password.None? ==> faults == old(faults) + 1
    {
      var works: bool := *;
      if works && key in disk.secrets { return Some(disk.secrets[key]); }
      faults := faults + 1;
      return None;
    }

    /** A change of the secrets that may fail before or after it happened. */
    method Change(secrets: map<string, string>) returns (ok: bool)
      modifies `disk, `trace, `faults
      ensures disk.folders == old(disk.folders) && trace == old(trace) + [disk]
      ensures ok ==> disk.secrets == secrets && faults == old(faults)
      ensures !ok ==> disk.secrets in {secrets, old(disk.secrets)} && faults == old(faults) + 1
    {
      ok := *;
      var happens: bool := *;
      if ok || happens { disk := disk.(secrets := secrets); }
      if !ok { faults := faults + 1; }
      trace := trace + [disk];
    }

    method StoreSecret(key: string, password: string) returns (ok: bool)
      modifies `disk, `trace, `faults
      ensures disk.folders == old(disk.folders) && trace == old(trace) + [disk]
      ensures ok ==> disk.secrets == old(disk.secrets)[key := password] && faults == old(faults)
      ensures !ok ==>
                disk.secrets in {old(disk.secrets)[key := password], old(disk.secrets)} && faults == old(faults) + 1
    {
      ok := Change(disk.secrets[key := password]);
    }

    method DeleteSecret(key: string) returns (ok: bool)
      modifies `disk, `trace, `faults
      ensures disk.folders == old(disk.folders) && trace == old(trace) + [disk]
      ensures ok ==> disk.secrets == old(disk.secrets) - {key} && faults == old(faults)
      ensures !ok ==> disk.secrets in {old(disk.secrets) - {key}, old(disk.secrets)} && faults == old(faults) + 1
    {
      ok := Change(disk.secrets - {key});
    }

    /** What the file holds, or nothing. */
    method ReadFolders() returns (folders: map<Id, string>, ghost works: bool)
      ensures folders == if works then disk.folders else map[]
    {
      var intact: bool := *;
      works := intact;
      return if intact then disk.folders else map[], works;
    }

    /** connections.json is replaced as a whole, without what is not stored, or left as it is. */
    method WriteFolders(folders: map<Id, string>) returns (ok: bool)
      modifies `disk, `trace
      ensures disk.secrets == old(disk.secrets)
      ensures disk.folders == if ok then StoredOnly(folders, disk.secrets) else old(disk.folders)
      ensures trace == old(trace) + [disk]
    {
      ok := *;
      if ok { disk := disk.(folders := StoredOnly(folders, disk.secrets)); }
      trace := trace + [disk];
    }

    method MoveKey(m: Move, p: Progress, ghost before: Disk, ghost done: seq<Move>) returns (q: Progress)
      requires IsMove(before.secrets, m) && Copying(before.secrets, disk.secrets, p) && disk.folders == before.folders
      requires !p.failed ==> OnTrack(before, disk.secrets, p, done)
      modifies `disk, `trace, `faults
      ensures Copying(before.secrets, disk.secrets, q) && disk.folders == before.folders
      ensures faults >= old(faults) && (q.failed <==> p.failed || faults > old(faults))
      ensures !q.failed ==> OnTrack(before, disk.secrets, q, done + [m])
      ensures old(trace) <= trace && forall i :: |old(trace)| <= i < |trace| ==> Good(before, trace[i])
    {
      hide EntryOf, NewKey, NothingMadeUp, Good, CameFrom, Copied, WithPaths, Keys, Outdated;
      if !p.failed { Continue(before, done, m); }
      var newKey := NewKey(m.id);
      q := p;
      if newKey !in p.present {
        var password := ReadSecret(m.key);
        if password.None? { return q.(failed := true); }
        StoringKeepsGrown(before.secrets, disk.secrets, m.id, m.key);
        var ok := StoreSecret(newKey, password.value);
        GrownWithFolders(before, disk);
        if !ok { return q.(failed := true); }
        q := q.(present := q.present + {newKey});
      }
      q := q.(oldKeys := q.oldKeys + [m.key]);
      if m.path != "" { q := q.(folders := q.folders + [m]); }
    }

    /** The keys under one prefix. */
    method MoveUnder(kind: Kind, prefix: string, keys: seq<string>, p: Progress, ghost before: Disk,
                     ghost done: seq<Move>)
      returns (q: Progress)
      requires prefix == Prefix(kind) || prefix == LegacyPrefix(kind)
      requires forall key :: key in keys ==> key in before.secrets
      requires Copying(before.secrets, disk.secrets, p) && disk.folders == before.folders
      requires !p.failed ==> OnTrack(before, disk.secrets, p, done)
      modifies `disk, `trace, `faults
      ensures Copying(before.secrets, disk.secrets, q) && disk.folders == before.folders
      ensures faults >= old(faults) && (q.failed <==> p.failed || faults > old(faults))
      ensures !q.failed ==> OnTrack(before, disk.secrets, q, done + MovesUnder(kind, prefix, keys))
      ensures old(trace) <= trace && forall i :: |old(trace)| <= i < |trace| ==> Good(before, trace[i])
    {
      hide EntryOf, EntryUnder, NewKey, Good, Copying, OnTrack;
      q := p;
      assert done + [] == done;
      for i := 0 to |keys|
        invariant Copying(before.secrets, disk.secrets, q) && disk.folders == before.folders
        invariant faults >= old(faults) && (q.failed <==> p.failed || faults > old(faults))
        invariant !q.failed ==> OnTrack(before, disk.secrets, q, done + MovesUnder(kind, prefix, keys[..i]))
        invariant old(trace) <= trace && forall i :: |old(trace)| <= i < |trace| ==> Good(before, trace[i])
      {
        var key := keys[i];
        ghost var sofar := done + MovesUnder(kind, prefix, keys[..i]);
        MovesUnderStep(kind, prefix, keys, i, done);
        if prefix <= key {
          var entry := EntryUnder(kind, prefix, key);
          EntryOfPrefixed(kind, prefix, key);
          if NewKey(entry.id) != key {
            q := MoveKey(Move(key, entry.id, entry.path), q, before, sofar);
          }
        }
      }
      assert keys[..|keys|] == keys;
    }

    method MoveAll(keys: seq<string>, ghost before: Disk) returns (p: Progress)
      requires before == disk && forall key :: key in keys <==> key in disk.secrets
      modifies `disk, `trace, `faults
      ensures Copying(before.secrets, disk.secrets, p) && disk.folders == before.folders
      ensures faults >= old(faults) && (p.failed <==> faults > old(faults))
      ensures !p.failed ==> OnTrack(before, disk.secrets, p, Moves(keys))
      ensures old(trace) <= trace && forall i :: |old(trace)| <= i < |trace| ==> Good(before, trace[i])
    {
      hide EntryOf, EntryUnder, NewKey, Good, MovesUnder;
      p := Progress(set key | key in keys, [], [], false);
      assert p.present == before.secrets.Keys;
      assert Copying(before.secrets, disk.secrets, p) && OnTrack(before, disk.secrets, p, []);
      hide Copying, OnTrack;
      var groups := Groups();
      for g := 0 to |groups|
        invariant Copying(before.secrets, disk.secrets, p) && disk.folders == before.folders
        invariant faults >= old(faults) && (p.failed <==> faults > old(faults))
        invariant !p.failed ==> OnTrack(before, disk.secrets, p, MovesOf(groups[..g], keys))
        invariant old(trace) <= trace && forall i :: |old(trace)| <= i < |trace| ==> Good(before, trace[i])
      {
        assert groups[..g + 1][..g] == groups[..g];
        p := MoveUnder(groups[g].0, groups[g].1, keys, p, before, MovesOf(groups[..g], keys));
      }
      assert groups[..|groups|] == groups;
    }

    /** The old keys are deleted, once everything of theirs is elsewhere. */
    method DeleteAll(oldKeys: seq<string>, ghost before: Disk) returns (moved: nat, failed: bool)
      requires Shrunk(before.secrets, disk.secrets, [])
      requires Superseded(before.secrets, disk.secrets, oldKeys)
      modifies `disk, `trace, `faults
      ensures disk.folders == old(disk.folders)
      ensures faults >= old(faults) && (failed <==> faults > old(faults))
      ensures !failed ==> disk.secrets == Without(old(disk.secrets), oldKeys) && moved == |oldKeys|
      ensures old(trace) <= trace
      ensures Plain(before.secrets) ==> forall i :: |old(trace)| <= i < |trace| ==>
                Kept(before.secrets, trace[i].secrets)
                && (Filed(before, disk.folders, oldKeys) ==> FoldersKept(before, trace[i]))
    {
      hide EntryOf, NewKey, NothingMadeUp, Kept, FoldersKept, Filed;
      moved, failed := 0, false;
      assert Shrunk(before.secrets, disk.secrets, oldKeys);
      hide Shrunk, Superseded, Plain;
      for k := 0 to |oldKeys|
        invariant disk.folders == old(disk.folders)
        invariant Plain(before.secrets) ==> Shrunk(before.secrets, disk.secrets, oldKeys)
        invariant faults >= old(faults) && (failed <==> faults > old(faults))
        invariant !failed ==> disk.secrets == Without(old(disk.secrets), oldKeys[..k]) && moved == k
        invariant old(trace) <= trace
        invariant Plain(before.secrets) ==> forall i :: |old(trace)| <= i < |trace| ==>
                    Kept(before.secrets, trace[i].secrets)
                    && (Filed(before, disk.folders, oldKeys) ==> FoldersKept(before, trace[i]))
      {
        ghost var was := disk.secrets;
        var ok := DeleteSecret(oldKeys[k]);
        if ok { moved := moved + 1; } else { failed := true; }
        assert oldKeys[..k + 1] == oldKeys[..k] + [oldKeys[k]];
        if Plain(before.secrets) {
          DeletingKeepsShrunk(before.secrets, was, oldKeys, oldKeys[k]);
          ShrunkIsKept(before.secrets, disk.secrets, oldKeys);
          if Filed(before, disk.folders, oldKeys) { FiledKeepsFolders(before, disk, oldKeys); }
        }
      }
      assert oldKeys[..|oldKeys|] == oldKeys;
    }

    /** Adds a folder only where what was read has none. */
    method MergeFolders(read: map<Id, string>, folders: seq<Move>) returns (merged: map<Id, string>)
      ensures merged == WithFolders(read, folders)
    {
      merged := read;
      for k := 0 to |folders|
        invariant merged == WithFolders(read, folders[..k])
      {
        assert folders[..k + 1][..k] == folders[..k];
        var m := folders[k];
        if m.path != "" && m.id !in merged { merged := merged[m.id := m.path]; }
      }
      assert folders[..|folders|] == folders;
    }

    /** Files the folders of the keys that were moved. It raises where the secrets cannot be listed. */
    method FileFolders(p: Progress, ghost before: Disk) returns (ok: bool, ghost filing: Filing)
      requires Copying(before.secrets, disk.secrets, p) && disk.folders == before.folders
      modifies `disk, `trace, `faults
      ensures disk.secrets == old(disk.secrets) && faults == old(faults) + if ok then 0 else 1
      ensures !ok ==> disk == old(disk) && trace == old(trace)
      ensures filing.InFile? ==> Filed(before, disk.folders, p.oldKeys)
      ensures ok ==> FiledAs(filing, disk.folders, before, p.folders, disk.secrets)
      ensures old(trace) <= trace
      ensures forall i :: |old(trace)| <= i < |trace| ==>
                Kept(before.secrets, trace[i].secrets) && (!filing.Unread? ==> Good(before, trace[i]))
    {
      hide EntryOf, NewKey, NothingMadeUp, WithFolders, Good, Kept;
      if p.folders == [] {
        NothingToFile(before, p, disk.secrets);
        return true, InFile;
      }
      var read;
      ghost var works;
      read, works := ReadFolders();
      var merged := MergeFolders(read, p.folders);
      var lists: bool := *;
      if !lists {
        faults := faults + 1;
        return false, Unwritten;
      }
      var written := WriteFolders(merged);
      filing := if !written then Unwritten else if works then InFile else Unread;
      if filing.InFile? { FoldersAreFiled(before, disk.secrets, p); }
      GrownIsKept(before.secrets, disk.secrets);
      if !filing.Unread? { GrownWithFolders(before, disk); }
      return true, filing;
    }

    /** The keys are copied, the folders filed, and then the old keys deleted. */
    method Upgrade() returns (moved: Option<nat>, ghost keys: seq<string>, ghost filing: Filing)
      modifies this
      ensures old(upgraded) ==> moved == Some(0) && upgraded && disk == old(disk) && trace == old(trace)
      ensures moved.None? ==>
                faults > old(faults) && upgraded == old(upgraded) && disk.folders == old(disk).folders
                && forall key :: key in old(disk).secrets ==>
                     key in disk.secrets && disk.secrets[key] == old(disk).secrets[key]
      ensures !old(upgraded) && moved.Some? ==>
                Lists(keys, old(disk).secrets) && faults >= old(faults) && (upgraded <==> faults == old(faults))
      ensures !old(upgraded) && upgraded ==>
                disk.secrets == Upgraded(old(disk).secrets, keys) && moved == Some(|Moves(keys)|)
                && FiledAs(filing, disk.folders, old(disk), Moves(keys), disk.secrets)
      ensures old(trace) <= trace
      ensures Plain(old(disk).secrets) ==> forall i :: |old(trace)| <= i < |trace| ==>
                Kept(old(disk).secrets, trace[i].secrets) && (filing.InFile? ==> FoldersKept(old(disk), trace[i]))
    {
      hide EntryOf, Good, Kept, FoldersKept, Lists, Upgraded, Moves, Plain, WithFolders, Keys, Filed, Shrunk, FiledAs;
      keys, filing := [], InFile;
      if upgraded { return Some(0), keys, filing; }
      var listed := ListSecrets();
      if listed.None? { return None, keys, filing; }
      keys := listed.value;
      ghost var before := disk;
      assert forall key :: key in keys <==> key in disk.secrets by { ListsAll(keys, disk.secrets); }
      var p := MoveAll(listed.value, before);
      GoodThroughout(before, old(trace), trace);
      ghost var moving := trace;
      var filed;
      filed, filing := FileFolders(p, before);
      if !filed { return None, keys, filing; }
      FiledThroughout(before, old(trace), moving, trace, filing);
      GrownIsShrunk(before.secrets, disk.secrets);
      ghost var mid, copied := trace, disk.secrets;
      var count, failed := DeleteAll(p.oldKeys, before);
      upgraded := !p.failed && !failed;
      UpgradeTrace(before, old(trace), mid, trace, disk.folders, p.oldKeys, filing);
      if upgraded {
        UpgradedInPhases(before.secrets, keys);
        FiledForTheRest(filing, disk.folders, before, Moves(keys), copied, disk.secrets);
      }
      return Some(count), keys, filing;
    }
  }

  lemma GrownIsKept(before: map<string, string>, now: map<string, string>)
    requires Grown(before, now)
    ensures Kept(before, now)
  {
    hide EntryOf, NothingMadeUp;
  }

  lemma GoodThroughout(before: Disk, start: seq<Disk>, end: seq<Disk>)
    requires forall i :: |start| <= i < |end| ==> Good(before, end[i])
    ensures forall i :: |start| <= i < |end| ==> Kept(before.secrets, end[i].secrets) && FoldersKept(before, end[i])
  {
    hide Kept, FoldersKept;
  }

  lemma FiledThroughout(before: Disk, start: seq<Disk>, moving: seq<Disk>, end: seq<Disk>, filing: Filing)
    requires start <= moving <= end
    requires forall i :: |start| <= i < |moving| ==>
               Kept(before.secrets, moving[i].secrets) && FoldersKept(before, moving[i])
    requires forall i :: |moving| <= i < |end| ==>
               Kept(before.secrets, end[i].secrets) && (!filing.Unread? ==> Good(before, end[i]))
    ensures forall i :: |start| <= i < |end| ==>
              Kept(before.secrets, end[i].secrets) && (filing.InFile? ==> FoldersKept(before, end[i]))
  {
    hide Kept, FoldersKept;
    assert forall i :: |start| <= i < |moving| ==> end[i] == moving[i];
  }

  lemma NothingToFile(before: Disk, p: Progress, secrets: map<string, string>)
    requires Copying(before.secrets, secrets, p) && p.folders == []
    ensures Filed(before, before.folders, p.oldKeys) && FiledAs(InFile, before.folders, before, p.folders, secrets)
  {
    hide EntryOf, NewKey, NothingMadeUp;
  }

  /** Written with what it held, the file has the folders of the keys that may go. */
  lemma FoldersAreFiled(before: Disk, secrets: map<string, string>, p: Progress)
    requires Copying(before.secrets, secrets, p)
    ensures Filed(before, StoredOnly(WithFolders(before.folders, p.folders), secrets), p.oldKeys)
  {
    hide EntryOf, NewKey, NothingMadeUp;
    WithFoldersHasAll(before.folders, p.folders);
  }

  lemma FiledForTheRest(filing: Filing, folders: map<Id, string>, before: Disk, moves: seq<Move>,
                        secrets: map<string, string>, fewer: map<string, string>)
    requires FiledAs(filing, folders, before, WithPaths(moves), secrets) && fewer.Keys <= secrets.Keys
    ensures FiledAs(filing, folders, before, moves, fewer)
  {
    hide NewKey, WithFolders;
    PathsFileAlike(before.folders, moves);
    PathsFileAlike(map[], moves);
  }

  lemma ListsAll(keys: seq<string>, secrets: map<string, string>)
    requires Lists(keys, secrets)
    ensures forall key :: key in keys <==> key in secrets
  {
  }

  lemma UpgradedInPhases(secrets: map<string, string>, keys: seq<string>)
    ensures Upgraded(secrets, keys) == Without(Copied(secrets, Moves(keys)), Keys(Moves(keys)))
    ensures |Keys(Moves(keys))| == |Moves(keys)|
  {
    hide Moves;
    KeysLength(Moves(keys));
  }

  lemma {:induction false} KeysLength(moves: seq<Move>)
    ensures |Keys(moves)| == |moves|
  {
    if moves != [] { KeysLength(moves[..|moves| - 1]); }
  }

  lemma UpgradeTrace(before: Disk, start: seq<Disk>, mid: seq<Disk>, end: seq<Disk>, folders: map<Id, string>,
                     oldKeys: seq<string>, filing: Filing)
    requires start <= mid <= end
    requires forall i :: |start| <= i < |mid| ==>
               Kept(before.secrets, mid[i].secrets) && (filing.InFile? ==> FoldersKept(before, mid[i]))
    requires Plain(before.secrets) ==> forall i :: |mid| <= i < |end| ==>
               Kept(before.secrets, end[i].secrets) && (Filed(before, folders, oldKeys) ==> FoldersKept(before, end[i]))
    requires filing.InFile? ==> Filed(before, folders, oldKeys)
    ensures Plain(before.secrets) ==> forall i :: |start| <= i < |end| ==>
              Kept(before.secrets, end[i].secrets) && (filing.InFile? ==> FoldersKept(before, end[i]))
  {
    hide Kept, FoldersKept, Plain, Filed;
    assert forall i :: |start| <= i < |mid| ==> end[i] == mid[i];
  }

  // --- What a run without a failure achieves -----------------------------------------------------------

  function FirstOf(moves: seq<Move>, id: Id): Option<Move> {
    if moves == [] then None
    else
      var earlier := FirstOf(moves[..|moves| - 1], id);
      if earlier.Some? then earlier else if moves[|moves| - 1].id == id then Some(moves[|moves| - 1]) else None
  }

  lemma NewKeyIsInjective(a: Id, b: Id)
    requires NewKey(a) == NewKey(b)
    ensures a == b
  {
    assert NewKey(a)[0] == Prefix(a.kind)[0] && NewKey(b)[0] == Prefix(b.kind)[0];
    assert NewKey(a)[|Prefix(a.kind)|..] == a.uri;
    assert NewKey(b)[|Prefix(b.kind)|..] == b.uri;
  }

  ghost predicate AreMoves(secrets: map<string, string>, moves: seq<Move>) {
    forall m :: m in moves ==> IsMove(secrets, m)
  }

  lemma {:induction false} MovesUnderAre(kind: Kind, prefix: string, keys: seq<string>, secrets: map<string, string>)
    requires prefix == Prefix(kind) || prefix == LegacyPrefix(kind)
    requires forall key :: key in keys ==> key in secrets
    ensures AreMoves(secrets, MovesUnder(kind, prefix, keys))
    ensures forall key :: key in keys && prefix <= key && Outdated(key) ==>
              exists m :: m in MovesUnder(kind, prefix, keys) && m.key == key
  {
    hide EntryOf, EntryUnder, NewKey;
    if keys != [] {
      var key := keys[|keys| - 1];
      MovesUnderAre(kind, prefix, keys[..|keys| - 1], secrets);
      if prefix <= key {
        EntryOfPrefixed(kind, prefix, key);
        if Outdated(key) {
          var entry := EntryUnder(kind, prefix, key);
          assert Move(key, entry.id, entry.path) in MovesUnder(kind, prefix, keys);
        }
      }
    }
  }

  lemma MovesInGroups(keys: seq<string>)
    ensures Moves(keys) == MovesUnder(Mcp, LegacyPrefix(Mcp), keys) + MovesUnder(Mcp, Prefix(Mcp), keys)
                           + MovesUnder(Gui, LegacyPrefix(Gui), keys) + MovesUnder(Gui, Prefix(Gui), keys)
  {
    hide MovesUnder, Prefix, LegacyPrefix;
    var g := Groups();
    assert g[..3][..2] == g[..2] && g[..2][..1] == g[..1] && g[..1][..0] == [];
    assert MovesOf(g[..1], keys) == MovesUnder(g[0].0, g[0].1, keys);
    assert MovesOf(g[..2], keys) == MovesUnder(g[0].0, g[0].1, keys) + MovesUnder(g[1].0, g[1].1, keys);
    assert MovesOf(g[..3], keys) == MovesOf(g[..2], keys) + MovesUnder(g[2].0, g[2].1, keys);
  }

  /** The outdated keys, and no others, are moved. */
  lemma MovesAreTheOutdated(keys: seq<string>, secrets: map<string, string>)
    requires Lists(keys, secrets)
    ensures AreMoves(secrets, Moves(keys))
    ensures forall key :: key in secrets && Outdated(key) ==> exists m :: m in Moves(keys) && m.key == key
  {
    hide EntryUnder, NewKey, MovesUnder, Prefix, LegacyPrefix;
    MovesInGroups(keys);
    MovesUnderAre(Mcp, LegacyPrefix(Mcp), keys, secrets);
    MovesUnderAre(Mcp, Prefix(Mcp), keys, secrets);
    MovesUnderAre(Gui, LegacyPrefix(Gui), keys, secrets);
    MovesUnderAre(Gui, Prefix(Gui), keys, secrets);
  }

  lemma {:induction false} KeysAre(moves: seq<Move>, key: string)
    ensures key in Keys(moves) <==> exists m :: m in moves && m.key == key
  {
    if moves != [] {
      KeysAre(moves[..|moves| - 1], key);
      assert moves == moves[..|moves| - 1] + [moves[|moves| - 1]];
    }
  }

  /** What was there stays; a new key gets the password of the first old one. */
  lemma {:induction false} CopiedIs(secrets: map<string, string>, moves: seq<Move>)
    requires AreMoves(secrets, moves)
    ensures forall key :: key in secrets ==>
              key in Copied(secrets, moves) && Copied(secrets, moves)[key] == secrets[key]
    ensures forall key :: key in Copied(secrets, moves) && key !in secrets ==>
              exists m :: m in moves && NewKey(m.id) == key
    ensures forall m :: m in moves ==> NewKey(m.id) in Copied(secrets, moves)
  {
    hide NewKey, EntryOf;
    if moves != [] {
      var init, last := moves[..|moves| - 1], moves[|moves| - 1];
      CopiedIs(secrets, init);
      assert IsMove(secrets, last);
      assert moves == init + [last];
    }
  }

  lemma {:induction false} CopiedValue(secrets: map<string, string>, moves: seq<Move>, id: Id)
    requires AreMoves(secrets, moves) && NewKey(id) !in secrets
    ensures NewKey(id) in Copied(secrets, moves) <==> FirstOf(moves, id).Some?
    ensures FirstOf(moves, id).Some? ==>
              FirstOf(moves, id).value in moves
                  && Copied(secrets, moves)[NewKey(id)] == secrets[FirstOf(moves, id).value.key]
  {
    hide NewKey, EntryOf;
    if moves != [] {
      var init, last := moves[..|moves| - 1], moves[|moves| - 1];
      CopiedValue(secrets, init, id);
      CopiedIs(secrets, init);
      assert IsMove(secrets, last);
      if NewKey(last.id) == NewKey(id) { NewKeyIsInjective(last.id, id); }
    }
  }

  /** After a run without a failure: only keys in the current format are left of the connections, and
      nothing else has changed. */
  lemma UpgradedIsCurrent(secrets: map<string, string>, keys: seq<string>)
    requires Lists(keys, secrets) && Plain(secrets)
    ensures forall key :: key in Upgraded(secrets, keys) ==> !Outdated(key)
    ensures forall key :: EntryOf(key).None? ==>
              (key in Upgraded(secrets, keys) <==> key in secrets)
              && (key in secrets ==> Upgraded(secrets, keys)[key] == secrets[key])
  {
    hide EntryOf, NewKey, Moves, Copied, Keys;
    var moves := Moves(keys);
    MovesAreTheOutdated(keys, secrets);
    CopiedIs(secrets, moves);
    forall key | key in Upgraded(secrets, keys) ensures !Outdated(key) {
      KeysAre(moves, key);
      if key !in secrets {
        var m :| m in moves && NewKey(m.id) == key;
        assert IsMove(secrets, m);
        NewKeyIsCurrent(m.id);
      }
    }
    forall key | EntryOf(key).None?
      ensures key in Upgraded(secrets, keys) <==> key in secrets
      ensures key in secrets ==> Upgraded(secrets, keys)[key] == secrets[key]
    {
      KeysAre(moves, key);
      if key in Copied(secrets, moves) && key !in secrets {
        var m :| m in moves && NewKey(m.id) == key;
        assert IsMove(secrets, m);
        NewKeyIsCurrent(m.id);
      }
    }
  }

  /** Each connection keeps the password its new key had, or else the first of its old ones. */
  lemma UpgradedPassword(secrets: map<string, string>, keys: seq<string>, id: Id)
    requires Lists(keys, secrets) && Plain(secrets)
    ensures HasPassword(Upgraded(secrets, keys), id) <==> HasPassword(secrets, id)
    ensures HasPassword(secrets, id) ==>
              var first := FirstOf(Moves(keys), id);
              && NewKey(id) in Upgraded(secrets, keys)
              && (NewKey(id) in secrets ==> Upgraded(secrets, keys)[NewKey(id)] == secrets[NewKey(id)])
              && (NewKey(id) !in secrets ==>
                    first.Some? && Holds(first.value.key, id) && first.value.key in secrets
                    && Upgraded(secrets, keys)[NewKey(id)] == secrets[first.value.key])
  {
    hide EntryOf, NewKey, Moves, Copied, Keys, FirstOf;
    var moves := Moves(keys);
    MovesAreTheOutdated(keys, secrets);
    CopiedIs(secrets, moves);
    UpgradedIsCurrent(secrets, keys);
    if HasPassword(Upgraded(secrets, keys), id) {
      var key :| key in Upgraded(secrets, keys) && Holds(key, id);
      if key !in secrets {
        var m :| m in moves && NewKey(m.id) == key;
        assert IsMove(secrets, m);
        NewKeyIsCurrent(m.id);
        assert Holds(m.key, id);
      }
    }
    if HasPassword(secrets, id) {
      var key :| key in secrets && Holds(key, id);
      NewKeyIsCurrent(id);
      if Outdated(key) {
        var m :| m in moves && m.key == key;
        assert IsMove(secrets, m);
      }
      assert NewKey(id) in Copied(secrets, moves);
      KeysAre(moves, NewKey(id));
      assert NewKey(id) !in Keys(moves);
      assert Holds(NewKey(id), id);
      if NewKey(id) !in secrets {
        CopiedValue(secrets, moves, id);
        FirstHasId(moves, id);
        assert IsMove(secrets, FirstOf(moves, id).value);
      }
    }
  }

  lemma {:induction false} FirstHasId(moves: seq<Move>, id: Id)
    ensures FirstOf(moves, id).Some? ==> FirstOf(moves, id).value.id == id
  {
    if moves != [] { FirstHasId(moves[..|moves| - 1], id); }
  }

  /** A second run finds nothing to move. */
  lemma SecondRunMovesNothing(secrets: map<string, string>, keys: seq<string>, again: seq<string>)
    requires Lists(keys, secrets) && Plain(secrets) && Lists(again, Upgraded(secrets, keys))
    ensures Moves(again) == [] && Upgraded(Upgraded(secrets, keys), again) == Upgraded(secrets, keys)
  {
    hide EntryOf, NewKey, Moves;
    var first := Upgraded(secrets, keys);
    UpgradedIsCurrent(secrets, keys);
    MovesAreTheOutdated(again, first);
    assert |Moves(again)| > 0 ==> IsMove(first, Moves(again)[0]);
    assert Without(first, []) == first;
  }

  lemma {:induction false} WithFoldersIs(folders: map<Id, string>, moves: seq<Move>, id: Id)
    ensures id in folders ==> id in WithFolders(folders, moves) && WithFolders(folders, moves)[id] == folders[id]
    ensures id in WithFolders(folders, moves) && id !in folders ==>
              exists m :: m in moves && m.id == id && m.path != "" && WithFolders(folders, moves)[id] == m.path
    ensures forall m :: m in moves && m.id == id && m.path != "" ==> id in WithFolders(folders, moves)
  {
    if moves != [] {
      WithFoldersIs(folders, moves[..|moves| - 1], id);
      assert moves[|moves| - 1] in moves;
    }
  }

  lemma UpgradedHasNoFolders(secrets: map<string, string>, keys: seq<string>)
    requires Lists(keys, secrets) && Plain(secrets)
    ensures forall key, id :: key in Upgraded(secrets, keys) ==> !KeyHasFolder(key, id)
    ensures forall key, id :: key in secrets && Holds(key, id) ==>
              NewKey(id) in Upgraded(secrets, keys) && Holds(NewKey(id), id)
  {
    hide EntryOf, NewKey, Upgraded;
    UpgradedIsCurrent(secrets, keys);
    forall key, id | key in secrets && Holds(key, id)
      ensures NewKey(id) in Upgraded(secrets, keys) && Holds(NewKey(id), id)
    {
      UpgradedPassword(secrets, keys, id);
      NewKeyIsCurrent(id);
    }
    forall key, id | key in Upgraded(secrets, keys) && Holds(key, id) ensures !KeyHasFolder(key, id) {
      UpgradedPassword(secrets, keys, id);
      var other :| other in secrets && Holds(other, id);
      NewKeyIsCurrent(id);
    }
  }

  /** A folder that could not be written to its file is lost with its key: a failure-free run of the
      secrets keeps every folder without the file written exactly when each was there already. */
  lemma UnwrittenFoldersAreLost(before: Disk, keys: seq<string>)
    requires Lists(keys, before.secrets) && Plain(before.secrets)
    ensures FoldersKept(before, Disk(Upgraded(before.secrets, keys), before.folders))
            <==> forall key :: key in before.secrets && EntryOf(key).Some? && EntryOf(key).value.path != "" ==>
                   EntryOf(key).value.id in before.folders
  {
    hide EntryOf, NewKey, Upgraded;
    UpgradedHasNoFolders(before.secrets, keys);
    forall key | key in before.secrets && EntryOf(key).Some? && EntryOf(key).value.path != ""
      ensures HasFolder(before, EntryOf(key).value.id)
    {
      assert KeyHasFolder(key, EntryOf(key).value.id);
    }
  }

  /** Where the file could not be read but was written, the folders it held are lost: everything keeps
      its folder exactly when each folder in the file is that of a key too. */
  lemma UnreadFoldersAreLost(before: Disk, keys: seq<string>, folders: map<Id, string>)
    requires Lists(keys, before.secrets) && Plain(before.secrets)
    requires FiledAs(Unread, folders, before, Moves(keys), Upgraded(before.secrets, keys))
    ensures FoldersKept(before, Disk(Upgraded(before.secrets, keys), folders))
            <==> forall id :: FiledFor(before, id) ==> exists key :: key in before.secrets && KeyHasFolder(key, id)
  {
    hide EntryOf, NewKey, Upgraded, WithFolders, Moves;
    var after := Disk(Upgraded(before.secrets, keys), folders);
    UpgradedHasNoFolders(before.secrets, keys);
    forall id ensures HasFolder(after, id) <==> exists key :: key in before.secrets && KeyHasFolder(key, id) {
      MovedFolders(before.secrets, keys, id);
    }
    assert forall id :: FiledFor(before, id) ==> HasFolder(before, id);
  }

  /** A folder is filed by a run that found none in the file exactly when a key had it. */
  lemma MovedFolders(secrets: map<string, string>, keys: seq<string>, id: Id)
    requires Lists(keys, secrets) && Plain(secrets)
    ensures id in WithFolders(map[], Moves(keys)) <==> exists key :: key in secrets && KeyHasFolder(key, id)
  {
    hide EntryOf, NewKey, WithFolders, Moves;
    var moves := Moves(keys);
    MovesAreTheOutdated(keys, secrets);
    WithFoldersIs(map[], moves, id);
    if id in WithFolders(map[], moves) {
      var m :| m in moves && m.id == id && m.path != "";
      assert IsMove(secrets, m) && KeyHasFolder(m.key, id);
    }
    if key :| key in secrets && KeyHasFolder(key, id) {
      NewKeyIsCurrent(id);
      var m :| m in moves && m.key == key;
      assert IsMove(secrets, m);
    }
  }

  lemma SlashedMoves()
    ensures Moves(["MCP:CONN:/a:/b:u", "MCP:CONN:/b:u"])
            == [Move("MCP:CONN:/a:/b:u", Id(Mcp, "/b:u"), "/a"), Move("MCP:CONN:/b:u", Id(Mcp, "u"), "/b")]
    ensures EntryOf("MCP:CONN:/a:/b:u") == Some(Entry(Id(Mcp, "/b:u"), "/a"))
  {
    var outer, inner := "MCP:CONN:/a:/b:u", "MCP:CONN:/b:u";
    hide EntryOf, MovesUnder, MoveOf, Moves;
    MovesInGroups([outer, inner]);
    FolderKeyMoves("/a", "/b:u");
    FolderKeyMoves("/b", "u");
    assert outer == Prefix(Mcp) + "/a" + ":" + "/b:u" && inner == Prefix(Mcp) + "/b" + ":" + "u";
    TwoKeys(Mcp, LegacyPrefix(Mcp), outer, inner);
    TwoKeys(Mcp, Prefix(Mcp), outer, inner);
    TwoKeys(Gui, LegacyPrefix(Gui), outer, inner);
    TwoKeys(Gui, Prefix(Gui), outer, inner);
  }

  /** The premise that no URI begins with a slash is needed: here a password is lost. */
  lemma SlashedUriLosesItsPassword()
    ensures var outer, inner := "MCP:CONN:/a:/b:u", "MCP:CONN:/b:u";
            var secrets := map[outer := "one", inner := "two"];
            Lists([outer, inner], secrets) && !Plain(secrets)
            && Upgraded(secrets, [outer, inner]) == map["MCP:CONN:u" := "two"]
  {
    var outer, inner := "MCP:CONN:/a:/b:u", "MCP:CONN:/b:u";
    var secrets := map[outer := "one", inner := "two"];
    hide EntryOf, Moves, Plain, Copied, Without, Keys, Upgraded;
    SlashedMoves();
    var m1, m2 := Move(outer, Id(Mcp, "/b:u"), "/a"), Move(inner, Id(Mcp, "u"), "/b");
    TwoMoves(secrets, m1, m2);
    assert NewKey(m1.id) == inner && NewKey(m2.id) == "MCP:CONN:u";
    NotPlain(secrets, outer);
    UpgradedInPhases(secrets, [outer, inner]);
  }

  lemma NotPlain(secrets: map<string, string>, key: string)
    requires key in secrets && EntryOf(key).Some? && "/" <= EntryOf(key).value.id.uri
    ensures !Plain(secrets)
  {
  }

  lemma TwoMoves(secrets: map<string, string>, m1: Move, m2: Move)
    requires NewKey(m1.id) == m2.key && m1.key in secrets && m2.key in secrets && NewKey(m2.id) !in secrets
    requires secrets.Keys == {m1.key, m2.key}
    ensures Without(Copied(secrets, [m1, m2]), Keys([m1, m2])) == map[NewKey(m2.id) := secrets[m2.key]]
  {
    hide NewKey;
    assert [m1, m2][..1] == [m1] && [m1][..0] == [];
    assert Copied(secrets, [m1]) == secrets;
    assert Copied(secrets, [m1, m2]) == secrets[NewKey(m2.id) := secrets[m2.key]];
    assert Keys([m1]) == [m1.key] && Keys([m1, m2]) == [m1.key, m2.key];
  }

  lemma TwoKeys(kind: Kind, prefix: string, a: string, b: string)
    ensures MovesUnder(kind, prefix, [a, b]) == MoveOf(kind, prefix, a) + MoveOf(kind, prefix, b)
  {
    hide MoveOf;
    assert [a, b][..1] == [a] && [a][..0] == [];
    assert MovesUnder(kind, prefix, [a]) == MoveOf(kind, prefix, a);
  }

  lemma FolderKeyMoves(path: string, uri: string)
    requires "/" <= path && ':' !in path
    ensures var key := Prefix(Mcp) + path + ":" + uri;
            && MoveOf(Mcp, Prefix(Mcp), key) == [Move(key, Id(Mcp, uri), path)]
            && MoveOf(Mcp, LegacyPrefix(Mcp), key) == [] && MoveOf(Gui, Prefix(Gui), key) == []
            && MoveOf(Gui, LegacyPrefix(Gui), key) == []
            && EntryOf(key) == Some(Entry(Id(Mcp, uri), path))
  {
    hide SplitFolderKey;
    var key := Prefix(Mcp) + path + ":" + uri;
    ColonOf(path, uri);
    assert key[9..] == path + ":" + uri;
    EntryOfPrefixed(Mcp, Prefix(Mcp), key);
    assert key[0] == 'M' && key[5] == 'O';
    assert |NewKey(Id(Mcp, uri))| < |key|;
  }

  lemma {:induction false} ColonOf(path: string, uri: string)
    requires ':' !in path
    ensures FirstColon(path + ":" + uri) == |path|
    ensures "/" <= path ==> SplitFolderKey(path + ":" + uri) == Suffix(uri, path)
  {
    var s := path + ":" + uri;
    assert forall j :: 0 <= j < |path| ==> s[j] == path[j];
    assert s[|path|] == ':';
  }
}
