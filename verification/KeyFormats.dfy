/**
 The formats a connection's key has had, written out, and which of several old keys is taken over
 (`_split_folder_key`, `upgrade_connection_keys`).
 */
module KeyFormats {
  import opened KeyUpgrade
  import opened Wrappers

  /** What follows a prefix: the URI, or a folder, which begins with a slash and holds no colon, and after a
      colon the URI. */
  ghost predicate Follows(entry: Option<Entry>, kind: Kind, suffix: string) {
    && entry.Some? && entry.value.id.kind == kind
    && if suffix != [] && suffix[0] == '/' && ':' in suffix
       then suffix == entry.value.path + ":" + entry.value.id.uri && ':' !in entry.value.path && entry.value.path != ""
       else entry.value.path == "" && entry.value.id.uri == suffix
  }

  lemma SuffixIsSplit(suffix: string)
    ensures var s := SplitFolderKey(suffix);
            if suffix != [] && suffix[0] == '/' && ':' in suffix
            then suffix == s.path + ":" + s.uri && ':' !in s.path && s.path != ""
            else s.path == "" && s.uri == suffix
  {
    var colon := FirstColon(suffix);
    if suffix != [] && suffix[0] == '/' && ':' in suffix {
      assert suffix[..colon] + ":" + suffix[colon + 1..] == suffix;
      assert ':' !in suffix[..colon];
    }
  }

  lemma PrefixedIsRead(kind: Kind, prefix: string, suffix: string)
    requires prefix == Prefix(kind) || prefix == LegacyPrefix(kind)
    ensures Follows(EntryOf(prefix + suffix), kind, suffix)
  {
    hide EntryOf, SplitFolderKey;
    EntryOfPrefixed(kind, prefix, prefix + suffix);
    assert (prefix + suffix)[|prefix|..] == suffix;
    SuffixIsSplit(suffix);
  }

  /** The keys of a connection: in the current format its list's prefix and its URI; in earlier ones another
      prefix, or a folder in between, or both. Any other key is none of a connection. */
  lemma KeysAreRead(key: string, suffix: string)
    ensures Follows(EntryOf("MCP:CONN:" + suffix), Mcp, suffix)
    ensures Follows(EntryOf("MCP:Connection:" + suffix), Mcp, suffix)
    ensures Follows(EntryOf("GUI:CONN:" + suffix), Gui, suffix)
    ensures Follows(EntryOf("GUI:Connection:" + suffix), Gui, suffix)
    ensures EntryOf(key).Some? <==>
            "MCP:CONN:" <= key || "MCP:Connection:" <= key || "GUI:CONN:" <= key || "GUI:Connection:" <= key
    ensures NewKey(Id(Mcp, suffix)) == "MCP:CONN:" + suffix && NewKey(Id(Gui, suffix)) == "GUI:CONN:" + suffix
  {
    hide EntryOf, Follows;
    PrefixedIsRead(Mcp, "MCP:CONN:", suffix);
    PrefixedIsRead(Mcp, "MCP:Connection:", suffix);
    PrefixedIsRead(Gui, "GUI:CONN:", suffix);
    PrefixedIsRead(Gui, "GUI:Connection:", suffix);
    OtherKeysAreNone(key);
  }

  lemma OtherKeysAreNone(key: string)
    ensures EntryOf(key).Some? <==>
            "MCP:CONN:" <= key || "MCP:Connection:" <= key || "GUI:CONN:" <= key || "GUI:Connection:" <= key
  {
    hide SplitFolderKey;
  }

  // --- Which old key is taken over -------------------------------------------------------------------

  lemma {:induction false} FirstOfBoth(a: seq<Move>, b: seq<Move>, id: Id)
    ensures FirstOf(a + b, id) == if FirstOf(a, id).Some? then FirstOf(a, id) else FirstOf(b, id)
  {
    if b == [] {
      assert a + b == a;
    } else {
      assert (a + b)[..|a + b| - 1] == a + b[..|b| - 1];
      FirstOfBoth(a, b[..|b| - 1], id);
    }
  }

  lemma FirstOfOne(moves: seq<Move>, id: Id)
    requires |moves| <= 1
    ensures FirstOf(moves, id) == if |moves| == 1 && moves[0].id == id then Some(moves[0]) else None
  {
    if |moves| == 1 { assert moves[..0] == []; }
  }

  /** A key under the prefix that is to be moved, and is the connection's. */
  predicate IsOld(kind: Kind, prefix: string, key: string, id: Id) {
    prefix <= key && EntryUnder(kind, prefix, key).id == id && NewKey(id) != key
  }

  lemma FirstOfMoveOf(kind: Kind, prefix: string, key: string, id: Id)
    ensures FirstOf(MoveOf(kind, prefix, key), id)
            == if IsOld(kind, prefix, key, id) then Some(Move(key, id, EntryUnder(kind, prefix, key).path)) else None
  {
    hide EntryUnder, NewKey;
    FirstOfOne(MoveOf(kind, prefix, key), id);
  }

  /** Under one prefix the first in the order of the list. */
  lemma {:induction false} FirstUnder(kind: Kind, prefix: string, keys: seq<string>, id: Id, i: nat)
    requires i < |keys| && IsOld(kind, prefix, keys[i], id)
    requires forall j :: 0 <= j < i ==> !IsOld(kind, prefix, keys[j], id)
    ensures FirstOf(MovesUnder(kind, prefix, keys), id).Some?
    ensures FirstOf(MovesUnder(kind, prefix, keys), id).value.key == keys[i]
  {
    hide IsOld, MoveOf, FirstOf;
    var init, key := keys[..|keys| - 1], keys[|keys| - 1];
    FirstOfBoth(MovesUnder(kind, prefix, init), MoveOf(kind, prefix, key), id);
    FirstOfMoveOf(kind, prefix, key, id);
    if i < |init| { FirstUnder(kind, prefix, init, id, i); } else { NoneUnder(kind, prefix, init, id); }
  }

  lemma {:induction false} NoneUnder(kind: Kind, prefix: string, keys: seq<string>, id: Id)
    requires forall j :: 0 <= j < |keys| ==> !IsOld(kind, prefix, keys[j], id)
    ensures FirstOf(MovesUnder(kind, prefix, keys), id) == None
  {
    hide IsOld, MoveOf;
    if keys != [] {
      var init, key := keys[..|keys| - 1], keys[|keys| - 1];
      FirstOfBoth(MovesUnder(kind, prefix, init), MoveOf(kind, prefix, key), id);
      FirstOfMoveOf(kind, prefix, key, id);
      NoneUnder(kind, prefix, init, id);
    }
  }

  lemma OtherKindHasNone(kind: Kind, prefix: string, keys: seq<string>, id: Id)
    requires id.kind != kind
    ensures FirstOf(MovesUnder(kind, prefix, keys), id) == None
  {
    hide SplitFolderKey, NewKey;
    forall j | 0 <= j < |keys| ensures !IsOld(kind, prefix, keys[j], id) {
    }
    NoneUnder(kind, prefix, keys, id);
  }

  /** The connection's own two prefixes are looked through one after the other. */
  lemma FirstOfMoves(keys: seq<string>, id: Id)
    ensures var legacy := FirstOf(MovesUnder(id.kind, LegacyPrefix(id.kind), keys), id);
            var current := FirstOf(MovesUnder(id.kind, Prefix(id.kind), keys), id);
            FirstOf(Moves(keys), id) == if legacy.Some? then legacy else current
  {
    hide FirstOf, MovesUnder, Moves;
    var a, b := MovesUnder(Mcp, LegacyPrefix(Mcp), keys), MovesUnder(Mcp, Prefix(Mcp), keys);
    var c, d := MovesUnder(Gui, LegacyPrefix(Gui), keys), MovesUnder(Gui, Prefix(Gui), keys);
    MovesInGroups(keys);
    FirstOfBoth(a, b, id);
    FirstOfBoth(a + b, c, id);
    FirstOfBoth(a + b + c, d, id);
    var other := if id.kind.Mcp? then Gui else Mcp;
    OtherKindHasNone(other, LegacyPrefix(other), keys, id);
    OtherKindHasNone(other, Prefix(other), keys, id);
  }

  /** In the format of the earliest keys. */
  predicate IsLegacy(key: string) {
    "MCP:Connection:" <= key || "GUI:Connection:" <= key
  }

  lemma OldUnderItsPrefix(key: string, id: Id, prefix: string)
    requires Holds(key, id) && key != NewKey(id)
    requires prefix == if IsLegacy(key) then LegacyPrefix(id.kind) else Prefix(id.kind)
    ensures IsOld(id.kind, prefix, key, id)
  {
    hide SplitFolderKey, EntryOf;
    OtherKeysAreNone(key);
    if "MCP:CONN:" <= key {
      EntryOfPrefixed(Mcp, "MCP:CONN:", key);
    } else if "MCP:Connection:" <= key {
      EntryOfPrefixed(Mcp, "MCP:Connection:", key);
    } else if "GUI:CONN:" <= key {
      EntryOfPrefixed(Gui, "GUI:CONN:", key);
    } else {
      EntryOfPrefixed(Gui, "GUI:Connection:", key);
    }
    if IsLegacy(key) { assert key[5] == 'o'; }
  }

  lemma OldIsHeld(key: string, id: Id, prefix: string)
    requires IsOld(id.kind, prefix, key, id) && (prefix == LegacyPrefix(id.kind) || prefix == Prefix(id.kind))
    ensures Holds(key, id) && key != NewKey(id) && (prefix == LegacyPrefix(id.kind) <==> IsLegacy(key))
  {
    hide EntryOf, SplitFolderKey;
    EntryOfPrefixed(id.kind, prefix, key);
    assert key[5] == prefix[5];
  }

  /** Where the new key is not there, the connection's password is that of its first old key: one with the
      earliest prefix before all others, and of those alike the one listed first. */
  lemma EarliestKeyWins(secrets: map<string, string>, keys: seq<string>, id: Id, i: nat)
    requires Lists(keys, secrets) && Plain(secrets)
    requires i < |keys| && Holds(keys[i], id) && NewKey(id) !in secrets
    requires forall j :: 0 <= j < |keys| && Holds(keys[j], id) ==>
               (IsLegacy(keys[i]) && !IsLegacy(keys[j])) || (IsLegacy(keys[i]) == IsLegacy(keys[j]) && i <= j)
    ensures NewKey(id) in Upgraded(secrets, keys) && Upgraded(secrets, keys)[NewKey(id)] == secrets[keys[i]]
  {
    hide EntryOf, NewKey, IsOld, IsLegacy, Prefix, LegacyPrefix, Moves, FirstOf, Upgraded, Plain;
    var legacy, current := LegacyPrefix(id.kind), Prefix(id.kind);
    var mine := if IsLegacy(keys[i]) then legacy else current;
    assert HasPassword(secrets, id);
    UpgradedPassword(secrets, keys, id);
    FirstOfMoves(keys, id);
    OldUnderItsPrefix(keys[i], id, mine);
    forall j | 0 <= j < |keys| && (IsOld(id.kind, legacy, keys[j], id) || IsOld(id.kind, current, keys[j], id))
      ensures Holds(keys[j], id)
      ensures IsOld(id.kind, legacy, keys[j], id) ==> IsLegacy(keys[j])
      ensures IsOld(id.kind, current, keys[j], id) ==> !IsLegacy(keys[j])
    {
      PrefixesDiffer(id.kind);
      if IsOld(id.kind, legacy, keys[j], id) { OldIsHeld(keys[j], id, legacy); }
      if IsOld(id.kind, current, keys[j], id) { OldIsHeld(keys[j], id, current); }
    }
    FirstUnder(id.kind, mine, keys, id, i);
    if !IsLegacy(keys[i]) { NoneUnder(id.kind, legacy, keys, id); }
  }

  lemma PrefixesDiffer(kind: Kind)
    ensures Prefix(kind) != LegacyPrefix(kind)
  {
    assert |Prefix(kind)| != |LegacyPrefix(kind)|;
  }
}
